// The conversation log, paging through it, and the view that compaction leaves of it.
module Conversation {
  datatype Turn = Turn(message: string, compaction: bool)

  // A row of the table `turn`, and what `load` answers with.
  datatype Row = Row(session: string, seqNo: nat, turn: Turn)

  // -- the log of one session --

  function Of(rows: seq<Row>, session: string): seq<Row> {
    if rows == [] then []
    else
      Of(rows[..|rows| - 1], session) + if rows[|rows| - 1].session == session then [rows[|rows| - 1]] else []
  }

  function WithoutSession(rows: seq<Row>, session: string): seq<Row> {
    if rows == [] then []
    else
      WithoutSession(rows[..|rows| - 1], session) +
      if rows[|rows| - 1].session == session then [] else [rows[|rows| - 1]]
  }

  function Numbered(session: string, turns: seq<Turn>): seq<Row> {
    seq(|turns|, i requires 0 <= i < |turns| => Row(session, i + 1, turns[i]))
  }

  function MaxSeq(rows: seq<Row>, session: string): nat {
    if rows == [] then 0
    else
      var most, last := MaxSeq(rows[..|rows| - 1], session), rows[|rows| - 1];
      if last.session == session && last.seqNo > most then last.seqNo else most
  }

  datatype Op = Append(session: string, turn: Turn) | Delete(session: string)

  // The table after an operation.
  function Applied(rows: seq<Row>, op: Op): seq<Row> {
    match op
    case Append(s, t) => rows + [Row(s, MaxSeq(rows, s) + 1, t)]
    case Delete(s) => WithoutSession(rows, s)
  }

  function Run(ops: seq<Op>): seq<Row> {
    if ops == [] then [] else Applied(Run(ops[..|ops| - 1]), ops[|ops| - 1])
  }

  // The turns appended to a session since it was last deleted.
  function Since(ops: seq<Op>, session: string): seq<Turn> {
    if ops == [] then []
    else
      var before := Since(ops[..|ops| - 1], session);
      match ops[|ops| - 1]
      case Append(s, t) => if s == session then before + [t] else before
      case Delete(s) => if s == session then [] else before
  }

  lemma {:induction false} MaxSeqOf(rows: seq<Row>, session: string, turns: seq<Turn>)
    requires Of(rows, session) == Numbered(session, turns)
    ensures MaxSeq(rows, session) == |turns|
  {
    if rows != [] {
      var before, last := rows[..|rows| - 1], rows[|rows| - 1];
      if last.session == session {
        var n := |turns|;
        assert Of(rows, session)[n - 1] == last;
        assert Of(before, session) == Of(rows, session)[..n - 1] == Numbered(session, turns[..n - 1]);
        MaxSeqOf(before, session, turns[..n - 1]);
      } else {
        assert Of(before, session) + [] == Of(before, session);
        MaxSeqOf(before, session, turns);
      }
    }
  }

  lemma {:induction false} OfWithout(rows: seq<Row>, gone: string, session: string)
    ensures Of(WithoutSession(rows, gone), session) == if gone == session then [] else Of(rows, session)
  {
    if rows != [] {
      var kept, last := WithoutSession(rows[..|rows| - 1], gone), rows[|rows| - 1];
      OfWithout(rows[..|rows| - 1], gone, session);
      if last.session == gone {
        assert kept + [] == kept;
        assert gone != session ==> Of(rows[..|rows| - 1], session) + [] == Of(rows[..|rows| - 1], session);
      } else {
        assert (kept + [last])[..|kept|] == kept;
      }
    }
  }

  lemma {:induction false} CountOf(rows: seq<Row>, session: string)
    ensures |rows| == |Of(rows, session)| + |WithoutSession(rows, session)|
  {
    if rows != [] { CountOf(rows[..|rows| - 1], session); }
  }

  lemma {:induction false} OfSnoc(rows: seq<Row>, r: Row, session: string)
    ensures Of(rows + [r], session) == Of(rows, session) + if r.session == session then [r] else []
  {
    assert (rows + [r])[..|rows|] == rows;
  }

  lemma NumberedSnoc(session: string, turns: seq<Turn>, t: Turn)
    ensures Numbered(session, turns + [t]) == Numbered(session, turns) + [Row(session, |turns| + 1, t)]
  {}

  // Over any interleaving of sessions, a session's rows are its turns in append order, numbered from 1.
  lemma {:induction false} LogExact(ops: seq<Op>, session: string)
    ensures Of(Run(ops), session) == Numbered(session, Since(ops, session))
  {
    if ops != [] {
      var before, rows := ops[..|ops| - 1], Run(ops[..|ops| - 1]);
      LogExact(before, session);
      match ops[|ops| - 1] {
        case Append(s, t) =>
          var r := Row(s, MaxSeq(rows, s) + 1, t);
          OfSnoc(rows, r, session);
          if s == session {
            MaxSeqOf(rows, session, Since(before, session));
            NumberedSnoc(session, Since(before, session), t);
          }
        case Delete(s) =>
          OfWithout(rows, s, session);
      }
    }
  }

  // -- loading --

  // ORDER BY seq: put a row in its place.
  function Insert(sorted: seq<Row>, r: Row): seq<Row> {
    if sorted == [] || sorted[|sorted| - 1].seqNo <= r.seqNo then sorted + [r]
    else Insert(sorted[..|sorted| - 1], r) + [sorted[|sorted| - 1]]
  }

  // The condition of the WHERE clause; a `before` of zero asks for no bound.
  predicate Selected(r: Row, session: string, before: int) {
    r.session == session && (before == 0 || r.seqNo < before)
  }

  function Select(rows: seq<Row>, session: string, before: int): seq<Row> {
    if rows == [] then []
    else
      var sorted, r := Select(rows[..|rows| - 1], session, before), rows[|rows| - 1];
      if Selected(r, session, before) then Insert(sorted, r) else sorted
  }

  // `rows[-limit:]` when there is a limit.
  function Limited<T>(rows: seq<T>, limit: int): seq<T> {
    if limit == 0 then rows
    else if limit > 0 then LastN(rows, limit)
    else if -limit <= |rows| then rows[-limit..] else []
  }

  function LastN<T>(s: seq<T>, n: nat): (l: seq<T>)
    ensures |l| == if n <= |s| then n else |s|
    ensures forall i :: 0 <= i < |l| ==> l[i] == s[|s| - |l| + i]
  {
    if n <= |s| then s[|s| - n..] else s
  }

  // No limit keeps every row, a limit of n the last n, and a negative one all but so many of the first.
  lemma LimitedExact<T>(front: seq<T>, back: seq<T>, more: int)
    ensures Limited(front + back, 0) == front + back
    ensures back != [] ==> Limited(front + back, |back|) == back
    ensures front != [] ==> Limited(front + back, -|front|) == back
    ensures more > |front + back| ==> Limited(front + back, more) == front + back && Limited(front + back, -more) == []
  {
    assert (front + back)[|front|..] == back;
  }

  // How many of the numbers 1..n are below the bound.
  function Below(n: nat, before: int): nat {
    if before == 0 || before > n then n else if before < 1 then 0 else before - 1
  }

  lemma {:induction false} SelectOf(rows: seq<Row>, session: string, before: int, turns: seq<Turn>)
    requires Of(rows, session) == Numbered(session, turns)
    ensures Select(rows, session, before) == Numbered(session, turns)[..Below(|turns|, before)]
  {
    if rows != [] {
      var rest, last := rows[..|rows| - 1], rows[|rows| - 1];
      if last.session == session {
        var n := |turns|;
        assert Of(rows, session)[n - 1] == last;
        assert Of(rest, session) == Of(rows, session)[..n - 1] == Numbered(session, turns[..n - 1]);
        SelectOf(rest, session, before, turns[..n - 1]);
      } else {
        assert Of(rest, session) + [] == Of(rest, session);
        SelectOf(rest, session, before, turns);
      }
    }
  }

  // What `load` answers.
  function Load(rows: seq<Row>, session: string, before: int, limit: int): seq<Row> {
    Limited(Select(rows, session, before), limit)
  }

  lemma {:induction false} LoadOf(rows: seq<Row>, session: string, before: int, limit: nat, turns: seq<Turn>)
    requires Of(rows, session) == Numbered(session, turns) && limit >= 1
    ensures var b := Below(|turns|, before);
            var page := Load(rows, session, before, limit);
            && page == Numbered(session, turns)[..b][if limit <= b then b - limit else 0..]
            && (b > 0 ==> page != [] && page[0].seqNo == 1 + (if limit <= b then b - limit else 0))
            && (b > 0 ==> Below(|turns|, page[0].seqNo) == page[0].seqNo - 1 < b)
  {
    SelectOf(rows, session, before, turns);
  }

  // Reading backwards, page by page, each time asking for what lies before the last page's first turn.
  function Backward(rows: seq<Row>, session: string, before: int, limit: nat, ghost turns: seq<Turn>): seq<Row>
    requires Of(rows, session) == Numbered(session, turns) && limit >= 1
    decreases Below(|turns|, before)
  {
    LoadOf(rows, session, before, limit, turns);
    var page := Load(rows, session, before, limit);
    if page == [] then [] else Backward(rows, session, page[0].seqNo, limit, turns) + page
  }

  lemma Glue(s: seq<Row>, k: nat, n: nat)
    requires k <= n <= |s|
    ensures s[..k] + s[..n][k..] == s[..n]
  {}

  // It ends, and has the whole log.
  lemma {:induction false} BackwardIsAll(rows: seq<Row>, session: string, before: int, limit: nat, turns: seq<Turn>)
    requires Of(rows, session) == Numbered(session, turns) && limit >= 1
    ensures Backward(rows, session, before, limit, turns) == Numbered(session, turns)[..Below(|turns|, before)]
    decreases Below(|turns|, before)
  {
    LoadOf(rows, session, before, limit, turns);
    var all, b, page := Numbered(session, turns), Below(|turns|, before), Load(rows, session, before, limit);
    if b > 0 {
      BackwardIsAll(rows, session, page[0].seqNo, limit, turns);
      Glue(all, page[0].seqNo - 1, b);
    }
  }

  lemma {:induction false} PagingExact(ops: seq<Op>, session: string, limit: nat)
    requires limit >= 1
    ensures Of(Run(ops), session) == Numbered(session, Since(ops, session))
    ensures Backward(Run(ops), session, 0, limit, Since(ops, session)) == Numbered(session, Since(ops, session))
  {
    LogExact(ops, session);
    BackwardIsAll(Run(ops), session, 0, limit, Since(ops, session));
  }

  // -- the table --

  class ConversationLog {
    var rows: seq<Row>
    ghost var ops: seq<Op>

    ghost predicate Valid()
      reads this
    {
      rows == Run(ops)
    }

    constructor ()
      ensures Valid() && ops == []
    {
      rows, ops := [], [];
    }

    // The greatest number in use in the session, zero when there is none.
    method Greatest(session: string) returns (most: nat)
      ensures most == MaxSeq(rows, session)
    {
      most := 0;
      for i := 0 to |rows|
        invariant most == MaxSeq(rows[..i], session)
      {
        assert rows[..i + 1][..i] == rows[..i];
        if rows[i].session == session && rows[i].seqNo > most { most := rows[i].seqNo; }
      }
      assert rows[..|rows|] == rows;
    }

    method AppendTurn(session: string, turn: Turn) returns (seqNo: nat)
      requires Valid()
      modifies this
      ensures Valid() && ops == old(ops) + [Append(session, turn)]
      ensures seqNo == |Since(ops, session)|
    {
      var most := Greatest(session);
      LogExact(ops, session);
      MaxSeqOf(rows, session, Since(ops, session));
      seqNo := most + 1;
      rows := rows + [Row(session, seqNo, turn)];
      assert (ops + [Append(session, turn)])[..|ops|] == ops;
      ops := ops + [Append(session, turn)];
    }

    method DeleteSession(session: string) returns (deleted: nat)
      requires Valid()
      modifies this
      ensures Valid() && ops == old(ops) + [Delete(session)]
      ensures deleted == |Since(old(ops), session)|
    {
      var kept := [];
      for i := 0 to |rows|
        invariant rows == old(rows) && ops == old(ops) && kept == WithoutSession(rows[..i], session) && |kept| <= i
      {
        assert rows[..i + 1][..i] == rows[..i];
        if rows[i].session != session { kept := kept + [rows[i]]; }
      }
      assert rows[..|rows|] == rows;
      CountOf(rows, session);
      LogExact(ops, session);
      deleted := |rows| - |kept|;
      rows := kept;
      assert (ops + [Delete(session)])[..|ops|] == ops;
      ops := ops + [Delete(session)];
    }

    method LoadTurns(session: string, before: int, limit: int) returns (page: seq<Row>)
      requires Valid()
      ensures page == Load(rows, session, before, limit)
      ensures page == Limited(Numbered(session, Since(ops, session))[..Below(|Since(ops, session)|, before)], limit)
    {
      page := [];
      for i := 0 to |rows|
        invariant page == Select(rows[..i], session, before)
      {
        assert rows[..i + 1][..i] == rows[..i];
        if Selected(rows[i], session, before) { page := Insert(page, rows[i]); }
      }
      assert rows[..|rows|] == rows;
      LogExact(ops, session);
      SelectOf(rows, session, before, Since(ops, session));
      page := Limited(page, limit);
    }
  }

  // -- compaction --

  // `_after_last_compaction`.
  function AfterLast(entries: seq<Turn>): seq<Turn> {
    if entries == [] then []
    else
      var last := entries[|entries| - 1];
      if last.compaction then [last] else AfterLast(entries[..|entries| - 1]) + [last]
  }

  lemma {:induction false} AfterLastSnoc(entries: seq<Turn>, t: Turn)
    ensures AfterLast(entries + [t]) == if t.compaction then [t] else AfterLast(entries) + [t]
  {
    assert (entries + [t])[..|entries|] == entries;
  }

  lemma SliceSnoc(s: seq<Turn>, k: nat, n: nat)
    requires k <= n < |s|
    ensures s[k..n + 1] == s[k..n] + [s[n]]
  {}

  method CutAtLast(entries: seq<Turn>) returns (cut: seq<Turn>)
    ensures cut == AfterLast(entries)
  {
    var last := -1;
    for i := 0 to |entries|
      invariant -1 <= last < i
      invariant AfterLast(entries[..i]) == entries[if last >= 0 then last else 0..i]
    {
      SliceSnoc(entries, 0, i);
      AfterLastSnoc(entries[..i], entries[i]);
      if last >= 0 { SliceSnoc(entries, last, i); }
      if entries[i].compaction { last := i; }
    }
    assert entries[..|entries|] == entries;
    cut := if last >= 0 then entries[last..] else entries;
  }

  // The last marker is at `k`; or there is none, and `k` is 0.
  predicate LastMarker(entries: seq<Turn>, k: nat) {
    && k <= |entries|
    && (forall i :: k < i < |entries| ==> !entries[i].compaction)
    && (k > 0 ==> k < |entries| && entries[k].compaction)
  }

  // The cut begins at the last marker, or is everything.
  lemma {:induction false} AfterLastExact(entries: seq<Turn>, k: nat)
    requires LastMarker(entries, k)
    ensures AfterLast(entries) == entries[k..]
  {
    if entries != [] {
      var before, last := entries[..|entries| - 1], entries[|entries| - 1];
      assert entries == before + [last];
      AfterLastSnoc(before, last);
      if last.compaction {
        assert k == |before|;
      } else {
        AfterLastExact(before, k);
        assert before[k..] + [last] == entries[k..];
      }
    }
  }

  lemma {:induction false} MarkerExists(entries: seq<Turn>) returns (k: nat)
    ensures LastMarker(entries, k)
  {
    if entries == [] || entries[|entries| - 1].compaction {
      k := if entries == [] then 0 else |entries| - 1;
    } else {
      k := MarkerExists(entries[..|entries| - 1]);
    }
  }

  lemma {:induction false} AfterLastConcat(entries: seq<Turn>, later: seq<Turn>)
    requires forall i :: 0 <= i < |later| ==> !later[i].compaction
    ensures AfterLast(entries + later) == AfterLast(entries) + later
  {
    if later == [] {
      assert entries + later == entries;
    } else {
      var init, last := later[..|later| - 1], later[|later| - 1];
      AfterLastConcat(entries, init);
      assert entries + later == entries + init + [last];
      AfterLastSnoc(entries + init, last);
      assert AfterLast(entries) + later == AfterLast(entries) + init + [last];
    }
  }

  // Taking the last n turns and cutting at the last marker can be done in either order.
  lemma {:induction false} ViewCommutes(log: seq<Turn>, n: nat)
    ensures AfterLast(LastN(log, n)) == LastN(AfterLast(log), n)
  {
    var k := MarkerExists(log);
    AfterLastExact(log, k);
    var recent := LastN(log, n);
    var gone := |log| - |recent|;
    var m: nat := if k < gone then 0 else k - gone;
    if n > 0 {
      assert LastMarker(recent, m);
      AfterLastExact(recent, m);
      LastNOf(log, n, k, m);
    }
  }

  // The last n, cut at the k-th of all, are the last n of those from the k-th on.
  lemma {:induction false} LastNOf(log: seq<Turn>, n: nat, k: nat, m: nat)
    requires k <= |log| && m == if k < |log| - |LastN(log, n)| then 0 else k - (|log| - |LastN(log, n)|)
    ensures LastN(log, n)[m..] == LastN(log[k..], n)
  {
    if n >= |log| {
      assert LastN(log, n) == log && LastN(log[k..], n) == log[k..];
    } else {
      var gone := |log| - n;
      assert LastN(log, n) == log[gone..];
      if k < gone {
        DropTwice(log, k, gone - k);
        assert LastN(log[k..], n) == log[k..][gone - k..];
      } else {
        DropTwice(log, gone, k - gone);
        assert LastN(log[k..], n) == log[k..];
      }
    }
  }

  lemma DropTwice(s: seq<Turn>, a: nat, b: nat)
    requires a + b <= |s|
    ensures s[a..][b..] == s[a + b..]
  {}

  // The turns a compaction would sum up.
  function Body(log: seq<Turn>): seq<Turn> {
    var live := AfterLast(log);
    if live != [] && live[0].compaction then live[1..] else live
  }

  // They are the turns behind the last marker, without it.
  lemma {:induction false} BodyExact(log: seq<Turn>, later: seq<Turn>)
    requires forall i :: 0 <= i < |later| ==> !later[i].compaction
    ensures Body(later) == later
    ensures forall marker: Turn :: marker.compaction ==> Body(log + [marker] + later) == later
  {
    AfterLastExact(later, 0);
    assert later[0..] == later;
    forall marker: Turn | marker.compaction ensures Body(log + [marker] + later) == later {
      AfterLastSnoc(log, marker);
      AfterLastConcat(log + [marker], later);
      assert ([marker] + later)[1..] == later;
    }
  }

  // What `run` puts in front of the model from a session's log.
  function View(log: seq<Turn>): seq<Turn> {
    AfterLast(LastN(log, 40))
  }

  // What is seen behind a compaction is its summary and the turns that follow, as far as the last forty
  // go, until the next one, whatever the log in front of it is.
  lemma {:induction false} CompactionView(log: seq<Turn>, summary: string, later: seq<Turn>)
    requires forall i :: 0 <= i < |later| ==> !later[i].compaction
    ensures View(log + [Turn(summary, true)] + later) == LastN([Turn(summary, true)] + later, 40)
    ensures View(log + later) == LastN(AfterLast(log) + later, 40)
  {
    var marked := log + [Turn(summary, true)];
    AfterLastSnoc(log, Turn(summary, true));
    AfterLastConcat(marked, later);
    ViewCommutes(marked + later, 40);
    AfterLastConcat(log, later);
    ViewCommutes(log + later, 40);
  }

  // So a turn that is appended while the model makes the summary, which it is not part of, is never seen
  // again.
  lemma {:induction false} MeanwhileUnseen(
    log: seq<Turn>, meanwhile: seq<Turn>, summary: string, later: seq<Turn>)
    requires forall i :: 0 <= i < |later| ==> !later[i].compaction
    ensures View(log + meanwhile + [Turn(summary, true)] + later) == View(log + [Turn(summary, true)] + later)
  {
    CompactionView(log + meanwhile, summary, later);
    CompactionView(log, summary, later);
  }

  function Turns(rows: seq<Row>): seq<Turn> {
    seq(|rows|, i requires 0 <= i < |rows| => rows[i].turn)
  }

  datatype Answer = Noop(turns: nat) | Summarised(turnsBefore: nat)

  // What other callers do to the store.
  method Others(store: ConversationLog, meanwhile: seq<Op>)
    requires store.Valid()
    modifies store
    ensures store.Valid() && store.ops == old(store.ops) + meanwhile
  {
    for i := 0 to |meanwhile|
      invariant store.Valid() && store.ops == old(store.ops) + meanwhile[..i]
    {
      assert meanwhile[..i + 1] == meanwhile[..i] + [meanwhile[i]];
      match meanwhile[i] {
        case Append(session, turn) => var _ := store.AppendTurn(session, turn);
        case Delete(session) => var _ := store.DeleteSession(session);
      }
    }
    assert meanwhile[..|meanwhile|] == meanwhile;
  }

  // `compact`, when the conversation store is bound; `summary` is the model's, and `meanwhile` is what
  // happens to the store while the model makes it.
  method Compact(store: ConversationLog, session: string, summary: string, meanwhile: seq<Op>) returns (a: Answer)
    requires store.Valid()
    modifies store
    ensures store.Valid()
    ensures var body := Body(Since(old(store.ops), session));
            if |body| <= 2 then a == Noop(|body|) && store.ops == old(store.ops)
            else
              a == Summarised(|body|) &&
              store.ops == old(store.ops) + meanwhile + [Append(session, Turn(summary, true))]
  {
    ghost var log := Since(store.ops, session);
    var page := store.LoadTurns(session, 0, 0);
    assert Turns(page) == log;
    if page == [] { return Noop(0); }
    var live := CutAtLast(Turns(page));
    var body := if live != [] && live[0].compaction then live[1..] else live;
    if |body| <= 2 { return Noop(|body|); }
    Others(store, meanwhile);
    var _ := store.AppendTurn(session, Turn(summary, true));
    a := Summarised(|body|);
  }
}
