/** The service originals of a lane, captured before any dispatch, and the tickets that select them. */
module LaneOriginals {
  import opened Wrappers
  import opened LaneProtocol
  import opened LaneLaws

  const REQUEST_LIMIT: nat := 4096
  const HEADER_LIMIT: nat := 16384
  const CAPTURE_LIMIT: nat := 524288

  /** One original. `shaped` stands for the checks of its text that look at nothing else: the header's and the
      request's form and the request's constant fields. */
  datatype Original = Original(
    selection: Selection, grant: string, resource: string, requestId: string,
    requestBytes: nat, headerBytes: nat, shaped: bool)

  /** The grant and the resource that every original must name. */
  datatype Target = Target(grant: string, resource: string)

  ghost predicate UsesId(rows: seq<Original>, id: string) {
    exists i :: 0 <= i < |rows| && rows[i].requestId == id
  }

  function Bytes(rows: seq<Original>): nat {
    if |rows| == 0 then 0 else
      Bytes(rows[..|rows| - 1]) + rows[|rows| - 1].requestBytes
      + rows[|rows| - 1].headerBytes + 512
  }

  /** May the original come next? */
  ghost predicate Fits(plan: Plan, target: Target, before: seq<Original>, next: Original) {
    && next.selection == CallAt(plan, |before|)
    && next.grant == target.grant && next.resource == target.resource && !UsesId(before, next.requestId)
    && 0 < next.requestBytes <= REQUEST_LIMIT && 0 < next.headerBytes <= HEADER_LIMIT && next.shaped
    && Bytes(before + [next]) <= CAPTURE_LIMIT
  }

  ghost predicate Captured(plan: Plan, target: Target, rows: seq<Original>) {
    |rows| == 0 || (Captured(plan, target, rows[..|rows| - 1])
      && Fits(plan, target, rows[..|rows| - 1], rows[|rows| - 1]))
  }

  lemma {:induction false} MisfitStays(plan: Plan, target: Target, rows: seq<Original>, k: nat)
    requires k <= |rows| && !Captured(plan, target, rows[..k])
    ensures !Captured(plan, target, rows)
  {
    if k < |rows| {
      assert rows[..|rows| - 1][..k] == rows[..k];
      MisfitStays(plan, target, rows[..|rows| - 1], k);
    } else {
      assert rows[..k] == rows;
    }
  }

  /** A captured prefix goes on exactly when the next original fits. */
  lemma {:induction false} CapturedNext(plan: Plan, target: Target, rows: seq<Original>, k: nat)
    requires k < |rows| && Captured(plan, target, rows[..k])
    ensures Captured(plan, target, rows[..k + 1]) <==> Fits(plan, target, rows[..k], rows[k])
    ensures rows[..k + 1] == rows[..k] + [rows[k]]
    ensures Bytes(rows[..k + 1]) == Bytes(rows[..k]) + rows[k].requestBytes + rows[k].headerBytes + 512
  {
    assert rows[..k + 1][..k] == rows[..k];
    assert rows[..k + 1] == rows[..k] + [rows[k]];
  }

  /** The ids seen are those of the originals so far. */
  ghost predicate Seen(rows: seq<Original>, seen: set<string>) {
    forall id :: id in seen <==> UsesId(rows, id)
  }

  lemma {:induction false} SeenNext(before: seq<Original>, seen: set<string>, o: Original)
    requires Seen(before, seen)
    ensures Seen(before + [o], seen + {o.requestId})
  {
    IdsStep(before, o);
  }

  /** The checks of one original against those before it; `bytes` counts it already. */
  method Check(plan: Plan, target: Target, ghost before: seq<Original>, o: Original, index: nat, seen: set<string>,
               bytes: nat) returns (fits: bool)
    requires index == |before| && bytes == Bytes(before + [o])
    requires Seen(before, seen)
    ensures fits <==> Fits(plan, target, before, o)
  {
    var warming := index < plan.warmupCalls;
    var expected := Selection(if warming then Warmup else Measurement, if warming then index
      else index - plan.warmupCalls);
    fits := o.selection == expected && o.grant == target.grant && o.resource == target.resource
      && o.requestId !in seen && 0 < o.requestBytes <= REQUEST_LIMIT && 0 < o.headerBytes <= HEADER_LIMIT && o.shaped
      && bytes <= CAPTURE_LIMIT;
  }

  /** The capture loop. */
  method Capture(plan: Plan, target: Target, originals: seq<Original>) returns (captured: bool)
    ensures captured <==> |originals| == plan.Total() && Captured(plan, target, originals)
  {
    if |originals| != plan.Total() {
      return false;
    }
    var seen: set<string> := {};
    var bytes, index := 0, 0;
    while index < |originals|
      invariant 0 <= index <= |originals| && Captured(plan, target, originals[..index])
      invariant Seen(originals[..index], seen)
      invariant bytes == Bytes(originals[..index])
    {
      var o := originals[index];
      CapturedNext(plan, target, originals, index);
      SeenNext(originals[..index], seen, o);
      bytes := bytes + o.requestBytes + o.headerBytes + 512;
      var fits := Check(plan, target, originals[..index], o, index, seen, bytes);
      if !fits {
        MisfitStays(plan, target, originals, index + 1);
        return false;
      }
      seen := seen + {o.requestId};
      index := index + 1;
    }
    assert originals[..index] == originals;
    return true;
  }

  lemma {:induction false} IdsStep(before: seq<Original>, o: Original)
    ensures forall id :: UsesId(before + [o], id) <==> UsesId(before, id) || id == o.requestId
  {
    forall id ensures UsesId(before + [o], id) <==> UsesId(before, id) || id == o.requestId {
      if UsesId(before, id) {
        var i :| 0 <= i < |before| && before[i].requestId == id;
        assert (before + [o])[i].requestId == id;
      }
      assert (before + [o])[|before|] == o;
    }
  }

  /** Captured originals: the k-th is the lane's k-th call, and no request id occurs twice. */
  lemma {:induction false} CapturedMeans(plan: Plan, target: Target, rows: seq<Original>)
    requires Captured(plan, target, rows)
    ensures forall k :: 0 <= k < |rows| ==>
            rows[k].selection == CallAt(plan, k) && rows[k].grant == target.grant
            && rows[k].resource == target.resource
    ensures forall i, j :: 0 <= i < j < |rows| ==> rows[i].requestId != rows[j].requestId
    ensures Bytes(rows) <= CAPTURE_LIMIT
  {
    if |rows| > 0 {
      var init, last := rows[..|rows| - 1], rows[|rows| - 1];
      CapturedMeans(plan, target, init);
      assert init + [last] == rows;
      assert forall i :: 0 <= i < |init| ==> init[i] == rows[i];
      forall i | 0 <= i < |init| ensures rows[i].requestId != last.requestId {
        assert init[i].requestId == rows[i].requestId;
      }
    }
  }

  /** Over every sequence of calls: the k-th execution ticket selects exactly the k-th captured original,
      and two execution tickets never select the same request id. */
  lemma {:induction false} TicketsSelectOriginals(plan: Plan, target: Target, originals: seq<Original>,
                                                  calls: seq<Call>, k: nat)
    requires |originals| == plan.Total() && Captured(plan, target, originals)
    requires SETUP + k < |Granted(plan, calls)|
    ensures k < |originals| && Granted(plan, calls)[SETUP + k].kind == Execute
    ensures Granted(plan, calls)[SETUP + k].selection == Some(originals[k].selection)
    ensures forall j :: 0 <= j < |originals| && j != k ==> originals[j].requestId != originals[k].requestId
    ensures forall j :: 0 <= j < |originals| && j != k ==> originals[j].selection != originals[k].selection
  {
    LaneInvariant(plan, calls);
    CapturedMeans(plan, target, originals);
    assert Granted(plan, calls)[SETUP + k] == ScriptTicket(plan, SETUP + k);
  }
}
