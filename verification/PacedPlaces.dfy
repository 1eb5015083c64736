/** Where a replay of the paced log stands after each of its prefixes, told from the positions of the rows. */
module PacedPlaces {
  import opened Wrappers
  import opened Clock
  import opened Recorder
  import opened PacedTrace
  import opened PacedPositions
  import opened Positions

  // ---- prefixes -----------------------------------------------------------------------------

  lemma {:induction false} PrefixNext(rows: seq<Row>, k: nat)
    requires k < |rows|
    ensures rows[..k + 1][..k] == rows[..k] && rows[..k + 1][k] == rows[k] && |rows[..k + 1]| == k + 1
  {
  }

  lemma {:induction false} CountIs(rows: seq<Row>, n: nat, kind: Event -> bool)
    requires n <= |rows|
    ensures Count(rows[..n], kind) == Number(n, Are(rows, kind))
  {
    if n == 0 {
      NumberNone(Are(rows, kind));
    } else {
      var k: nat := n - 1;
      PrefixNext(rows, k);
      CountIs(rows, k, kind);
      NumberNext(k, Are(rows, kind));
    }
  }

  lemma {:induction false} SeenNext(rows: seq<Row>, k: nat, kind: Event -> bool, r: int)
    ensures Seen(rows, k + 1, kind, r) <==> Seen(rows, k, kind, r) || Happens(rows, k, kind, r)
  {
    if Seen(rows, k + 1, kind, r) {
      var j: nat :| j < k + 1 && Happens(rows, j, kind, r);
      assert j < k || j == k;
    }
  }

  lemma {:induction false} SoundNext(plan: Plan, core: Core, rows: seq<Row>, k: nat)
    requires k < |rows|
    ensures SoundBelow(plan, core, rows, k + 1) <==>
              SoundBelow(plan, core, rows, k) && RowSound(plan, core, rows, k)
  {
  }

  // ---- requests -----------------------------------------------------------------------------

  /** The requests named by the rows before position n are the first ones. */
  lemma {:induction false} RequestsAre(plan: Plan, core: Core, rows: seq<Row>, n: nat, r: int)
    requires n <= |rows| && SoundBelow(plan, core, rows, n)
    ensures Seen(rows, n, IsRequest(), r) <==> 1 <= r <= Number(n, Are(rows, IsRequest()))
    ensures Seen(rows, n, IsRequest(), r) ==> HasCall(core, r)
  {
    if n == 0 {
      NumberNone(Are(rows, IsRequest()));
    } else {
      var k: nat := n - 1;
      assert k + 1 == n;
      RequestsAre(plan, core, rows, k, r);
      SeenNext(rows, k, IsRequest(), r);
      NumberNext(k, Are(rows, IsRequest()));
      assert RowSound(plan, core, rows, k);
    }
  }

  /** How far request r has come before position n. */
  ghost function StateAt(rows: seq<Row>, n: nat, r: int): Phase {
    if Seen(rows, n, IsWithdraw(), r) then Withheld
    else if Seen(rows, n, IsTerminal(), r) then Done
    else if Seen(rows, n, IsDispatch(), r) then Entered
    else if Seen(rows, n, IsWait(), r) then Waiting
    else Reserved
  }

  /** Some row before position n is of the kind, names request r and reads `at`. */
  ghost predicate Read(rows: seq<Row>, n: nat, kind: Event -> bool, r: int, at: int) {
    exists j: nat :: j < n && Happens(rows, j, kind, r) && ReadingAt(rows, j) == at
  }

  ghost predicate AskedFrom(rows: seq<Row>, n: nat, r: int, lane: int) {
    exists j: nat :: j < n && Happens(rows, j, IsRequest(), r) && AsksFor(rows, j, lane)
  }

  /** Each step of a request comes after the one before it. */
  ghost predicate InSteps(rows: seq<Row>, n: nat, r: int) {
    && (Seen(rows, n, IsWait(), r) ==> Seen(rows, n, IsRequest(), r))
    && (Seen(rows, n, IsDispatch(), r) ==> Seen(rows, n, IsWait(), r) && !Seen(rows, n, IsWithdraw(), r))
    && (Seen(rows, n, IsTerminal(), r) ==> Seen(rows, n, IsDispatch(), r))
    && (Seen(rows, n, IsWithdraw(), r) ==> Seen(rows, n, IsRequest(), r))
  }

  lemma {:induction false} SeenEither(rows: seq<Row>, n: nat, r: int)
    ensures Seen(rows, n, IsLeave(), r) <==> Seen(rows, n, IsDispatch(), r) || Seen(rows, n, IsWithdraw(), r)
    ensures Seen(rows, n, IsClose(), r) <==> Seen(rows, n, IsTerminal(), r) || Seen(rows, n, IsWithdraw(), r)
  {
    if Seen(rows, n, IsDispatch(), r) {
      var j: nat :| j < n && Happens(rows, j, IsDispatch(), r);
      assert Happens(rows, j, IsLeave(), r);
    }
    if Seen(rows, n, IsTerminal(), r) {
      var j: nat :| j < n && Happens(rows, j, IsTerminal(), r);
      assert Happens(rows, j, IsClose(), r);
    }
    if Seen(rows, n, IsWithdraw(), r) {
      var j: nat :| j < n && Happens(rows, j, IsWithdraw(), r);
      assert Happens(rows, j, IsLeave(), r) && Happens(rows, j, IsClose(), r);
    }
    if Seen(rows, n, IsLeave(), r) {
      var j: nat :| j < n && Happens(rows, j, IsLeave(), r);
      assert Happens(rows, j, IsDispatch(), r) || Happens(rows, j, IsWithdraw(), r);
    }
    if Seen(rows, n, IsClose(), r) {
      var j: nat :| j < n && Happens(rows, j, IsClose(), r);
      assert Happens(rows, j, IsTerminal(), r) || Happens(rows, j, IsWithdraw(), r);
    }
  }

  lemma {:induction false} AllNext(rows: seq<Row>, k: nat, r: int)
    ensures forall kind: Event -> bool :: Seen(rows, k + 1, kind, r) <==>
              Seen(rows, k, kind, r) || Happens(rows, k, kind, r)
  {
    forall kind: Event -> bool
      ensures Seen(rows, k + 1, kind, r) <==> Seen(rows, k, kind, r) || Happens(rows, k, kind, r)
    {
      SeenNext(rows, k, kind, r);
    }
  }

  lemma {:induction false} StepsAre(plan: Plan, core: Core, rows: seq<Row>, n: nat, r: int)
    requires n <= |rows| && SoundBelow(plan, core, rows, n)
    ensures InSteps(rows, n, r)
  {
    if n > 0 {
      var k: nat := n - 1;
      assert k + 1 == n;
      StepsAre(plan, core, rows, k, r);
      AllNext(rows, k, r);
      SeenEither(rows, k, r);
      assert RowSound(plan, core, rows, k);
    }
  }

  /** The item of request r after n rows. */
  ghost predicate ItemIs(core: Core, rows: seq<Row>, n: nat, r: int, item: Item) {
    && HasCall(core, r) && item.state == StateAt(rows, n, r) && AskedFrom(rows, n, r, item.lane)
    && item.begin == CallBegin(core, r) && item.finish == CallFinish(core, r).at
    && item.outcome == CallFinish(core, r).outcome
    && (Seen(rows, n, IsWait(), r) ==> Read(rows, n, IsWait(), r, item.waitAt))
    && (Seen(rows, n, IsDispatch(), r) ==> Read(rows, n, IsDispatch(), r, item.sourceAt))
  }

  ghost predicate ItemsHold(core: Core, rows: seq<Row>, n: nat, items: seq<Item>) {
    && |items| == Number(n, Are(rows, IsRequest()))
    && forall i: nat :: i < |items| ==> ItemIs(core, rows, n, i + 1, items[i])
  }

  lemma {:induction false} ReadStays(rows: seq<Row>, k: nat, kind: Event -> bool, r: int, at: int)
    requires Read(rows, k, kind, r, at)
    ensures Read(rows, k + 1, kind, r, at)
  {
  }

  lemma {:induction false} AskedStays(rows: seq<Row>, k: nat, r: int, lane: int)
    requires AskedFrom(rows, k, r, lane)
    ensures AskedFrom(rows, k + 1, r, lane)
  {
  }

  /** A row that does not name the request leaves its item. */
  lemma {:induction false} ItemStays(core: Core, rows: seq<Row>, k: nat, r: int, item: Item)
    requires k < |rows| && ItemIs(core, rows, k, r, item)
    requires rows[k].event.Finalize? || rows[k].event.request != r
    ensures ItemIs(core, rows, k + 1, r, item)
  {
    AllNext(rows, k, r);
    AskedStays(rows, k, r, item.lane);
    if Seen(rows, k, IsWait(), r) {
      ReadStays(rows, k, IsWait(), r, item.waitAt);
    }
    if Seen(rows, k, IsDispatch(), r) {
      ReadStays(rows, k, IsDispatch(), r, item.sourceAt);
    }
  }

  /** The item that the row makes of the one it names. */
  ghost function Moved(item: Item, event: Event): Item {
    match event
    case WaitBegin(_, at) => item.(state := Waiting, waitAt := at)
    case Dispatch(_, at) => item.(state := Entered, sourceAt := at)
    case SourceTerminal(_, _, _) => item.(state := Done)
    case Withdraw(_, _, _) => item.(state := Withheld)
    case _ => item
  }

  lemma {:induction false} ItemMoves(plan: Plan, core: Core, rows: seq<Row>, k: nat, r: int, item: Item)
    requires k < |rows| && SoundBelow(plan, core, rows, k + 1) && ItemIs(core, rows, k, r, item)
    requires !rows[k].event.Finalize? && !rows[k].event.Request? && rows[k].event.request == r
    ensures ItemIs(core, rows, k + 1, r, Moved(item, rows[k].event))
  {
    var event := rows[k].event;
    assert RowSound(plan, core, rows, k);
    AllNext(rows, k, r);
    SeenEither(rows, k, r);
    StepsAre(plan, core, rows, k, r);
    StepsAre(plan, core, rows, k + 1, r);
    AskedStays(rows, k, r, item.lane);
    if event.WaitBegin? {
      assert Happens(rows, k, IsWait(), r) && ReadingAt(rows, k) == event.at;
      assert Read(rows, k + 1, IsWait(), r, event.at);
    } else if Seen(rows, k, IsWait(), r) {
      ReadStays(rows, k, IsWait(), r, item.waitAt);
    }
    if event.Dispatch? {
      assert Happens(rows, k, IsDispatch(), r) && ReadingAt(rows, k) == event.at;
      assert Read(rows, k + 1, IsDispatch(), r, event.at);
    } else if Seen(rows, k, IsDispatch(), r) {
      ReadStays(rows, k, IsDispatch(), r, item.sourceAt);
    }
  }

  /** A new request has not come any way yet. */
  lemma {:induction false} ItemBegins(plan: Plan, core: Core, rows: seq<Row>, k: nat)
    requires k < |rows| && SoundBelow(plan, core, rows, k + 1) && rows[k].event.Request?
    ensures var r := rows[k].event.request;
            HasCall(core, r)
            && ItemIs(core, rows, k + 1, r, Item(Reserved, rows[k].event.lane, CallBegin(core, r),
                                                 CallFinish(core, r).at, CallFinish(core, r).outcome, 0, 0))
  {
    var r := rows[k].event.request;
    assert RowSound(plan, core, rows, k);
    AllNext(rows, k, r);
    RequestsAre(plan, core, rows, k, r);
    StepsAre(plan, core, rows, k, r);
    assert Happens(rows, k, IsRequest(), r) && AsksFor(rows, k, rows[k].event.lane);
    assert AskedFrom(rows, k + 1, r, rows[k].event.lane);
  }

  lemma {:induction false} ItemsNext(plan: Plan, core: Core, rows: seq<Row>, k: nat, items: seq<Item>)
    requires k < |rows| && SoundBelow(plan, core, rows, k + 1) && ItemsHold(core, rows, k, items)
    ensures ItemsHold(core, rows, k + 1, ItemsAfter(core, items, rows[k].event))
  {
    var event := rows[k].event;
    var after := ItemsAfter(core, items, event);
    assert RowSound(plan, core, rows, k);
    NumberNext(k, Are(rows, IsRequest()));
    if event.Request? {
      ItemBegins(plan, core, rows, k);
    } else if !event.Finalize? {
      SeenEither(rows, k, event.request);
      StepsAre(plan, core, rows, k, event.request);
      RequestsAre(plan, core, rows, k, event.request);
      ItemMoves(plan, core, rows, k, event.request, items[event.request - 1]);
    }
    forall i: nat | i < |after| ensures ItemIs(core, rows, k + 1, i + 1, after[i]) {
      if event.Finalize? || i + 1 != event.request {
        ItemStays(core, rows, k, i + 1, items[i]);
      }
    }
  }

  /** The items of a prefix say, for each request, how far it has come and when. */
  lemma {:induction false} ItemsAre(plan: Plan, core: Core, rows: seq<Row>, n: nat)
    requires n <= |rows| && SoundBelow(plan, core, rows, n)
    ensures ItemsHold(core, rows, n, Items(core, rows[..n]))
  {
    if n == 0 {
      NumberNone(Are(rows, IsRequest()));
    } else {
      var k: nat := n - 1;
      assert k + 1 == n;
      PrefixNext(rows, k);
      ItemsAre(plan, core, rows, k);
      ItemsNext(plan, core, rows, k, Items(core, rows[..k]));
    }
  }

  /** No row of a kind that names a request is repeated. */
  lemma {:induction false} OpenedOnce(plan: Plan, core: Core, rows: seq<Row>, n: nat, s: Series, i: nat, j: nat)
    requires n <= |rows| && SoundBelow(plan, core, rows, n) && i < n && j < n
    requires OpensAt(rows, i, s) && OpensAt(rows, j, s) && rows[i].event.request == rows[j].event.request
    ensures i == j
  {
    var kind := if s == Wait then IsWait() else IsDispatch();
    var r := rows[i].event.request;
    assert RowSound(plan, core, rows, i) && RowSound(plan, core, rows, j);
    assert Happens(rows, i, kind, r) && Happens(rows, j, kind, r);
    SeenEither(rows, i, r);
    SeenEither(rows, j, r);
  }
}
