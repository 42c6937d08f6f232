/** Turn retention and body trimming: what the nightly job deletes, cuts and leaves alone. */
module Retention {
  import opened GoStrings

  const PER_BOT: nat := 200
  const BODY_LIMIT: nat := 500
  const BodyMarker := "\U{E2}\U{80}\U{A6} [trimmed by maintenance]"
  const PAGE: nat := 500

  datatype Turn = Turn(id: nat, bot: nat, created: nat, input: string, output: string)

  /** The table in id order; ids start at 1. */
  ghost predicate Table(ts: seq<Turn>) {
    (forall j, k :: 0 <= j < k < |ts| ==> ts[j].id < ts[k].id) && (forall k :: 0 <= k < |ts| ==> ts[k].id > 0)
  }

  // ----- retention -----

  /** How many turns of the same bot are newer than `t`. */
  function Newer(ts: seq<Turn>, t: Turn): nat {
    if ts == [] then 0
    else
      var (front, last) := (ts[..|ts| - 1], ts[|ts| - 1]);
      Newer(front, t) + if last.bot == t.bot && last.id > t.id then 1 else 0
  }

  /** A turn stays if it is young, or among its bot's newest. */
  predicate Stays(all: seq<Turn>, t: Turn, cutoff: nat) {
    t.created >= cutoff || Newer(all, t) < PER_BOT
  }

  /** The rows of `ts` without the turns of `bots` that do not stay. */
  function Retained(ts: seq<Turn>, all: seq<Turn>, bots: set<nat>, cutoff: nat): seq<Turn> {
    if ts == [] then []
    else
      var (front, last) := (ts[..|ts| - 1], ts[|ts| - 1]);
      Retained(front, all, bots, cutoff) + if last.bot in bots && !Stays(all, last, cutoff) then [] else [last]
  }

  function Bots(ts: seq<Turn>): set<nat> {
    set t | t in ts :: t.bot
  }

  /** The query for the id of a bot's newest turn after the first `skip`. */
  function NthNewest(ts: seq<Turn>, bot: nat, skip: nat): Option<nat> {
    if ts == [] then None
    else
      var (front, last) := (ts[..|ts| - 1], ts[|ts| - 1]);
      if last.bot != bot then NthNewest(front, bot, skip)
      else if skip == 0 then Some(last.id)
      else NthNewest(front, bot, skip - 1)
  }

  /** The DELETE statement: a bot's old turns up to an id. */
  function DeleteUpTo(ts: seq<Turn>, bot: nat, upTo: nat, cutoff: nat): seq<Turn> {
    if ts == [] then []
    else
      var (front, last) := (ts[..|ts| - 1], ts[|ts| - 1]);
      DeleteUpTo(front, bot, upTo, cutoff)
        + if last.bot == bot && last.id <= upTo && last.created < cutoff then [] else [last]
  }

  // ----- trimming -----

  /** `trimBody`: the cut body, and whether it was cut. */
  function TrimBody(s: string): (string, bool) {
    if |s| <= BODY_LIMIT || HasSuffix(s, BodyMarker) then (s, false) else (s[..BODY_LIMIT] + BodyMarker, true)
  }

  function TrimRow(t: Turn): Turn {
    t.(input := TrimBody(t.input).0, output := TrimBody(t.output).0)
  }

  /** All turns older than the cutoff, trimmed. */
  function TrimOld(ts: seq<Turn>, cutoff: nat): seq<Turn> {
    seq(|ts|, k requires 0 <= k < |ts| => if ts[k].created < cutoff then TrimRow(ts[k]) else ts[k])
  }

  /** How many of the first `p` rows trimming changes. */
  function Changed(ts: seq<Turn>, cutoff: nat, p: nat): nat
    requires p <= |ts|
  {
    if p == 0 then 0 else Changed(ts, cutoff, p - 1) + if TrimOld(ts, cutoff)[p - 1] != ts[p - 1] then 1 else 0
  }

  /** The WHERE clause of the trim query. */
  predicate Matches(t: Turn, after: nat, cutoff: nat) {
    t.id > after && t.created < cutoff && (|t.input| > BODY_LIMIT || |t.output| > BODY_LIMIT)
  }

  /** Positions a page speaks for: all of them when it is short, else those up to its last row. */
  predicate Covered(page: seq<nat>, limit: nat, i: nat) {
    |page| < limit || (page != [] && i < page[|page| - 1])
  }

  /** Positions of the first `limit` matching rows at or after `from`, in id order. */
  function Page(ts: seq<Turn>, from: nat, after: nat, cutoff: nat, limit: nat): (page: seq<nat>)
    requires from <= |ts|
    ensures forall k :: 0 <= k < |page| ==> from <= page[k] < |ts|
    decreases |ts| - from
  {
    if from == |ts| || limit == 0 then []
    else if Matches(ts[from], after, cutoff) then [from] + Page(ts, from + 1, after, cutoff, limit - 1)
    else Page(ts, from + 1, after, cutoff, limit)
  }

  /** At most `limit` rows: they match, are in id order, and none that matches is left out up to the end of
      the page. */
  ghost predicate IsPage(page: seq<nat>, ts: seq<Turn>, from: nat, after: nat, cutoff: nat, limit: nat) {
    && |page| <= limit && (forall k :: 0 <= k < |page| ==> from <= page[k] < |ts| && Matches(ts[page[k]], after, cutoff))
    && (forall j, k :: 0 <= j < k < |page| ==> page[j] < page[k])
    && forall i :: from <= i < |ts| && Matches(ts[i], after, cutoff) && Covered(page, limit, i) ==> i in page
  }

  lemma {:induction false} PageFacts(ts: seq<Turn>, from: nat, after: nat, cutoff: nat, limit: nat)
    requires from <= |ts|
    ensures IsPage(Page(ts, from, after, cutoff, limit), ts, from, after, cutoff, limit)
    decreases |ts| - from
  {
    hide Matches;
    if from == |ts| || limit == 0 {
    } else if Matches(ts[from], after, cutoff) {
      PageFacts(ts, from + 1, after, cutoff, limit - 1);
      PageMore(ts, from, after, cutoff, limit, Page(ts, from + 1, after, cutoff, limit - 1));
    } else {
      PageFacts(ts, from + 1, after, cutoff, limit);
    }
  }

  lemma PageMore(ts: seq<Turn>, from: nat, after: nat, cutoff: nat, limit: nat, rest: seq<nat>)
    requires from < |ts| && limit > 0
    requires Matches(ts[from], after, cutoff) && IsPage(rest, ts, from + 1, after, cutoff, limit - 1)
    ensures IsPage([from] + rest, ts, from, after, cutoff, limit)
  {
    hide Matches;
    var page := [from] + rest;
    forall i | from <= i < |ts| && Matches(ts[i], after, cutoff) && Covered(page, limit, i) ensures i in page {
      if i == from {
        assert page[0] == i;
      } else {
        assert rest != [] ==> page[|page| - 1] == rest[|rest| - 1];
        assert i in rest;
      }
    }
  }

  class TurnTable {
    var turns: seq<Turn>

    /** `applyTurnRetention`, the deleting half. */
    method ApplyRetention(cutoff: nat) returns (deleted: nat)
      requires Table(turns)
      modifies this
      ensures turns == Retained(old(turns), old(turns), Bots(old(turns)), cutoff)
      ensures Table(turns) && deleted == |old(turns)| - |turns|
    {
      hide Retained, NthNewest, DeleteUpTo, Newer;
      ghost var all := turns;
      var todo := Bots(turns);
      ghost var done: set<nat> := {};
      deleted := 0;
      AllStay(all, all, {}, cutoff);
      while todo != {}
        invariant todo + done == Bots(all) && todo !! done
        invariant Table(turns) && turns == Retained(all, all, done, cutoff)
        invariant deleted == |all| - |turns|
        decreases todo
      {
        var bot :| bot in todo;
        var before := turns;
        var floor := NthNewest(turns, bot, PER_BOT);
        FloorDecides(turns, bot, PER_BOT);
        RetainedTable(before, before, {bot}, cutoff);
        RetainedRows(before, before, {bot}, cutoff);
        if floor.Some? {
          DeleteIsRetained(before, before, bot, floor.value, cutoff);
          turns := DeleteUpTo(turns, bot, floor.value, cutoff);
          deleted := deleted + |before| - |turns|;
        } else {
          AllStay(before, before, {bot}, cutoff);
        }
        RetainMore(all, all, done, bot, cutoff);
        RetainedTable(all, all, done + {bot}, cutoff);
        todo, done := todo - {bot}, done + {bot};
      }
      assert done == Bots(all);
    }

    /** `trimTurnBodies`: walking the ids forward page by page. */
    method TrimTurnBodies(cutoff: nat) returns (trimmed: nat)
      requires Table(turns)
      modifies this
      ensures turns == TrimOld(old(turns), cutoff)
      ensures trimmed == Changed(old(turns), cutoff, |turns|)
    {
      hide Page, Upto, TrimOld;
      ghost var ts, p := turns, 0;
      var after := 0;
      trimmed := 0;
      UptoStart(ts, cutoff);
      while true
        invariant p <= |ts| && Upto(ts, turns, cutoff, p, after) && trimmed == Changed(ts, cutoff, p)
        decreases |ts| - p
      {
        var page := Page(turns, 0, after, cutoff, PAGE);
        ghost var table, cursor := turns, after;
        ghost var start := p;
        var k := 0;
        while k < |page|
          invariant k <= |page| && start <= p <= |ts| && (k > 0 ==> start < p == page[k - 1] + 1)
          invariant k == 0 ==> p == start && after == cursor
          invariant p <= |ts| && Upto(ts, turns, cutoff, p, after) && trimmed == Changed(ts, cutoff, p)
        {
          var i := page[k];
          SkippedRowsStay(ts, table, cutoff, start, cursor, page, k, p);
          NothingChanges(ts, cutoff, p, i);
          RowDone(ts, turns, cutoff, p, after, i);
          after := turns[i].id;
          assert turns[i := turns[i]] == turns;
          var input, output := TrimBody(turns[i].input), TrimBody(turns[i].output);
          if input.1 || output.1 {
            turns := turns[i := turns[i].(input := input.0, output := output.0)];
            trimmed := trimmed + 1;
          }
          p := i + 1;
          k := k + 1;
        }
        if |page| < PAGE {
          RestStays(ts, table, cutoff, start, cursor, page, p);
          NothingChanges(ts, cutoff, p, |ts|);
          AllDone(ts, turns, cutoff, p, after);
          return;
        }
      }
    }
  }

  // ----- what retention keeps -----

  lemma {:induction false} AllStay(ts: seq<Turn>, all: seq<Turn>, bots: set<nat>, cutoff: nat)
    requires forall t :: t in ts && t.bot in bots ==> Stays(all, t, cutoff)
    ensures Retained(ts, all, bots, cutoff) == ts
  {
    hide Stays;
    if ts != [] {
      assert ts == ts[..|ts| - 1] + [ts[|ts| - 1]] && ts[|ts| - 1] in ts;
      AllStay(ts[..|ts| - 1], all, bots, cutoff);
    }
  }

  lemma {:induction false} RetainedRows(ts: seq<Turn>, all: seq<Turn>, bots: set<nat>, cutoff: nat)
    ensures |Retained(ts, all, bots, cutoff)| <= |ts|
    ensures forall t :: t in Retained(ts, all, bots, cutoff) <==> t in ts && (t.bot in bots ==> Stays(all, t, cutoff))
  {
    hide Stays;
    if ts != [] {
      var (front, last) := (ts[..|ts| - 1], ts[|ts| - 1]);
      RetainedRows(front, all, bots, cutoff);
      assert forall t :: t in ts <==> t in front || t == last;
    }
  }

  lemma {:induction false} RetainedTable(ts: seq<Turn>, all: seq<Turn>, bots: set<nat>, cutoff: nat)
    requires Table(ts)
    ensures Table(Retained(ts, all, bots, cutoff))
  {
    hide Stays;
    if ts != [] {
      var (front, last) := (ts[..|ts| - 1], ts[|ts| - 1]);
      RetainedTable(front, all, bots, cutoff);
      RetainedRows(front, all, bots, cutoff);
      assert Table(Retained(front, all, bots, cutoff) + [last]) &&
             Retained(front, all, bots, cutoff) + [] == Retained(front, all, bots, cutoff);
    }
  }

  /** The floor query finds exactly the turns with at least `skip` newer ones of their bot. */
  lemma {:induction false} FloorDecides(ts: seq<Turn>, bot: nat, skip: nat)
    requires Table(ts)
    ensures var floor := NthNewest(ts, bot, skip);
            && (floor.None? || (ts != [] && floor.value <= ts[|ts| - 1].id))
            && forall t :: t in ts && t.bot == bot ==> (Newer(ts, t) >= skip <==> floor.Some? && t.id <= floor.value)
  {
    if ts != [] {
      var (front, last) := (ts[..|ts| - 1], ts[|ts| - 1]);
      assert ts == front + [last];
      FloorDecides(front, bot, if last.bot == bot && skip > 0 then skip - 1 else skip);
      NoneNewer(front, last);
    }
  }

  lemma {:induction false} NoneNewer(ts: seq<Turn>, t: Turn)
    requires forall u :: u in ts ==> u.id < t.id
    ensures Newer(ts, t) == 0
  {
    if ts != [] {
      NoneNewer(ts[..|ts| - 1], t);
    }
  }

  lemma {:induction false} DeleteIsRetained(ts: seq<Turn>, all: seq<Turn>, bot: nat, floor: nat, cutoff: nat)
    requires forall t :: t in ts && t.bot == bot ==> (Newer(all, t) >= PER_BOT <==> t.id <= floor)
    ensures DeleteUpTo(ts, bot, floor, cutoff) == Retained(ts, all, {bot}, cutoff)
  {
    if ts != [] {
      DeleteIsRetained(ts[..|ts| - 1], all, bot, floor, cutoff);
    }
  }

  /** Deleting the turns of other bots does not change how many newer turns a turn has. */
  lemma {:induction false} OthersDoNotCount(ts: seq<Turn>, all: seq<Turn>, done: set<nat>, cutoff: nat, t: Turn)
    requires t.bot !in done
    ensures Newer(Retained(ts, all, done, cutoff), t) == Newer(ts, t)
  {
    if ts != [] {
      var (front, last) := (ts[..|ts| - 1], ts[|ts| - 1]);
      OthersDoNotCount(front, all, done, cutoff, t);
      var kept := Retained(ts, all, done, cutoff);
      assert kept == Retained(front, all, done, cutoff) || kept[..|kept| - 1] == Retained(front, all, done, cutoff);
    }
  }

  /** Bots can be handled one after the other. */
  lemma {:induction false} RetainMore(ts: seq<Turn>, all: seq<Turn>, done: set<nat>, bot: nat, cutoff: nat)
    requires bot !in done && forall t :: t in ts ==> t in all
    ensures Retained(Retained(ts, all, done, cutoff), Retained(all, all, done, cutoff), {bot}, cutoff)
         == Retained(ts, all, done + {bot}, cutoff)
  {
    if ts != [] {
      var (front, last) := (ts[..|ts| - 1], ts[|ts| - 1]);
      RetainMore(front, all, done, bot, cutoff);
      if last.bot == bot {
        OthersDoNotCount(all, all, done, cutoff, last);
      }
      var kept := Retained(ts, all, done, cutoff);
      assert kept == Retained(front, all, done, cutoff) || kept[..|kept| - 1] == Retained(front, all, done, cutoff);
    }
  }

  /** The first `p` rows have been trimmed, the rest not yet; `after` is the id of the last one seen. */
  ghost predicate Upto(ts: seq<Turn>, now: seq<Turn>, cutoff: nat, p: nat, after: nat) {
    && Table(ts) && |now| == |ts| && p <= |ts|
    && (forall k :: 0 <= k < p ==> ts[k].id <= after) && (forall k :: p <= k < |ts| ==> ts[k].id > after)
    && (forall k :: 0 <= k < |ts| ==> now[k] == if k < p then TrimOld(ts, cutoff)[k] else ts[k])
  }

  /** A row the query does not match is not changed by trimming. */
  lemma UnmatchedStays(t: Turn, after: nat, cutoff: nat)
    requires t.id > after && !Matches(t, after, cutoff)
    ensures (if t.created < cutoff then TrimRow(t) else t) == t
  {
  }

  /** Between two rows of a page there is nothing to trim. */
  lemma SkippedRowsStay(ts: seq<Turn>, table: seq<Turn>, cutoff: nat, start: nat, cursor: nat, page: seq<nat>, k: nat, p: nat)
    requires Upto(ts, table, cutoff, start, cursor) && page == Page(table, 0, cursor, cutoff, PAGE) && k < |page|
    requires start <= p && (if k == 0 then p == start else p == page[k - 1] + 1)
    ensures p <= page[k] < |ts| && ts[page[k]].created < cutoff
    ensures forall j :: p <= j < page[k] ==> TrimOld(ts, cutoff)[j] == ts[j]
  {
    hide TrimBody, Page;
    PageFacts(table, 0, cursor, cutoff, PAGE);
    assert Matches(table[page[k]], cursor, cutoff);
    forall j | p <= j < page[k] ensures TrimOld(ts, cutoff)[j] == ts[j] {
      forall m | 0 <= m < |page| ensures page[m] != j {
        assert m < k - 1 ==> page[m] < page[k - 1];
        assert k < m ==> page[k] < page[m];
      }
      assert k < |page| - 1 ==> page[k] < page[|page| - 1];
      UnmatchedStays(ts[j], cursor, cutoff);
    }
  }

  /** Handling row `i` after the rows before it brings the table one row further. */
  lemma RowDone(ts: seq<Turn>, now: seq<Turn>, cutoff: nat, p: nat, after: nat, i: nat)
    requires Upto(ts, now, cutoff, p, after) && p <= i < |ts|
    requires forall j :: p <= j < i ==> TrimOld(ts, cutoff)[j] == ts[j]
    ensures |now| == |ts| && now[i] == ts[i]
    ensures ts[i].created < cutoff ==> TrimOld(ts, cutoff)[i] == TrimRow(ts[i])
    ensures Upto(ts, now[i := TrimOld(ts, cutoff)[i]], cutoff, i + 1, ts[i].id)
  {
    hide TrimBody;
  }

  lemma UptoStart(ts: seq<Turn>, cutoff: nat)
    requires Table(ts)
    ensures Upto(ts, ts, cutoff, 0, 0)
  {
    hide TrimOld;
  }

  lemma AllDone(ts: seq<Turn>, now: seq<Turn>, cutoff: nat, p: nat, after: nat)
    requires Upto(ts, now, cutoff, p, after) && forall j :: p <= j < |ts| ==> TrimOld(ts, cutoff)[j] == ts[j]
    ensures now == TrimOld(ts, cutoff) && |now| == |ts|
  {
    hide TrimBody;
  }

  lemma RestStays(ts: seq<Turn>, table: seq<Turn>, cutoff: nat, start: nat, cursor: nat, page: seq<nat>, p: nat)
    requires Upto(ts, table, cutoff, start, cursor) && page == Page(table, 0, cursor, cutoff, PAGE) && |page| < PAGE
    requires start <= p <= |ts| && (if page == [] then p == start else p == page[|page| - 1] + 1)
    ensures forall j :: p <= j < |ts| ==> TrimOld(ts, cutoff)[j] == ts[j]
  {
    hide TrimBody, Page;
    PageFacts(table, 0, cursor, cutoff, PAGE);
    forall j | p <= j < |ts| ensures TrimOld(ts, cutoff)[j] == ts[j] {
      forall m | 0 <= m < |page| ensures page[m] != j {
        assert m < |page| - 1 ==> page[m] < page[|page| - 1];
      }
      UnmatchedStays(ts[j], cursor, cutoff);
    }
  }

  lemma {:induction false} NothingChanges(ts: seq<Turn>, cutoff: nat, p: nat, q: nat)
    requires p <= q <= |ts| && forall j :: p <= j < q ==> TrimOld(ts, cutoff)[j] == ts[j]
    ensures Changed(ts, cutoff, p) == Changed(ts, cutoff, q)
    decreases q
  {
    hide TrimOld, TrimBody;
    if p < q {
      NothingChanges(ts, cutoff, p, q - 1);
    }
  }

  // ----- a second run at the same time -----

  /** Retention leaves exactly the turns that are young or among their bot's newest, in order. */
  lemma RetentionKeeps(ts: seq<Turn>, cutoff: nat)
    requires Table(ts)
    ensures var kept := Retained(ts, ts, Bots(ts), cutoff);
            Table(kept) && forall t :: t in kept <==> t in ts && (t.created >= cutoff || Newer(ts, t) < 200)
  {
    RetainedTable(ts, ts, Bots(ts), cutoff);
    RetainedRows(ts, ts, Bots(ts), cutoff);
  }

  lemma {:induction false} FewerNewer(ts: seq<Turn>, all: seq<Turn>, bots: set<nat>, cutoff: nat, t: Turn)
    ensures Newer(Retained(ts, all, bots, cutoff), t) <= Newer(ts, t)
  {
    if ts != [] {
      var (front, last) := (ts[..|ts| - 1], ts[|ts| - 1]);
      FewerNewer(front, all, bots, cutoff, t);
      var kept := Retained(ts, all, bots, cutoff);
      assert kept == Retained(front, all, bots, cutoff) || kept[..|kept| - 1] == Retained(front, all, bots, cutoff);
    }
  }

  lemma {:induction false} TrimKeepsNewer(ts: seq<Turn>, cutoff: nat, t: Turn, u: Turn)
    requires t.bot == u.bot && t.id == u.id
    ensures Newer(TrimOld(ts, cutoff), u) == Newer(ts, t)
  {
    if ts != [] {
      var front := ts[..|ts| - 1];
      TrimKeepsNewer(front, cutoff, t, u);
      assert TrimOld(ts, cutoff)[..|ts| - 1] == TrimOld(front, cutoff);
    }
  }

  /** A body is cut if and only if it has more than 500 bytes and does not say that it was cut: to its first
      500, and a note that says so. A cut body is not cut again. */
  lemma TrimBodyIs(s: string)
    ensures var (body, cut) := TrimBody(s);
            && (cut <==> |s| > 500 && !HasSuffix(s, "\U{E2}\U{80}\U{A6} [trimmed by maintenance]"))
            && (!cut ==> body == s)
            && (cut ==> |body| >= 500 && body[..500] == s[..500] && body[500..] == "\U{E2}\U{80}\U{A6} [trimmed by maintenance]")
            && TrimBody(body) == (body, false)
  {
    if TrimBody(s).1 {
      assert (s[..BODY_LIMIT] + BodyMarker)[BODY_LIMIT..] == BodyMarker;
    }
  }

  /** Trimming touches nothing but the two bodies of the rows before the cutoff. */
  lemma TrimTouches(ts: seq<Turn>, cutoff: nat)
    ensures |TrimOld(ts, cutoff)| == |ts|
    ensures forall k :: 0 <= k < |ts| ==>
              var t, r := ts[k], TrimOld(ts, cutoff)[k];
              if t.created >= cutoff then r == t
              else r.id == t.id && r.bot == t.bot && r.created == t.created
                   && r.input == TrimBody(t.input).0 && r.output == TrimBody(t.output).0
  {
    hide TrimBody;
  }

  /** The number of newer turns of the bot. */
  lemma {:induction false} NewerIs(ts: seq<Turn>, t: Turn)
    ensures Newer(ts, t) == |set k | 0 <= k < |ts| && ts[k].bot == t.bot && ts[k].id > t.id|
  {
    if ts != [] {
      var n := |ts| - 1;
      var front := ts[..n];
      NewerIs(front, t);
      var before := set k | 0 <= k < |front| && front[k].bot == t.bot && front[k].id > t.id;
      var all := set k | 0 <= k < |ts| && ts[k].bot == t.bot && ts[k].id > t.id;
      assert all == before + (if ts[n].bot == t.bot && ts[n].id > t.id then {n} else {}) && n !in before by {
        hide Newer;
      }
    }
  }

  /** The whole of `applyTurnRetention`: delete, then trim. */
  function Maintained(ts: seq<Turn>, retention: nat, bodies: nat): seq<Turn> {
    TrimOld(Retained(ts, ts, Bots(ts), retention), bodies)
  }

  /** Running the maintenance again at the same time deletes nothing and trims nothing. */
  lemma MaintainedOnce(ts: seq<Turn>, retention: nat, bodies: nat)
    requires Table(ts)
    ensures var once := Maintained(ts, retention, bodies);
            && Retained(once, once, Bots(once), retention) == once
            && TrimOld(once, bodies) == once && Changed(once, bodies, |once|) == 0
  {
    var kept := Retained(ts, ts, Bots(ts), retention);
    var once := TrimOld(kept, bodies);
    RetentionKeeps(ts, retention);
    forall k | 0 <= k < |once| ensures Stays(once, once[k], retention) {
      assert kept[k] in kept;
      FewerNewer(ts, ts, Bots(ts), retention, kept[k]);
      TrimKeepsNewer(kept, bodies, kept[k], once[k]);
    }
    AllStay(once, once, Bots(once), retention);
    forall k | 0 <= k < |once| ensures TrimOld(once, bodies)[k] == once[k] {
      TrimBodyIs(kept[k].input);
      TrimBodyIs(kept[k].output);
    }
    NothingChanges(once, bodies, 0, |once|);
  }
}
