/** db.py, `execute_batch`: several statements in one transaction, each under a
    savepoint of the same name, against a model of the server session. */
module Batch {
  import opened Text

  /** What the cursor shows after a command: `rowcount` and `statusmessage`. */
  datatype Reply = Reply(rowcount: int, status: string)

  /** A statement either moves the database on or fails, leaving whatever wreckage
      the aborted part of it left in the open transaction. */
  datatype Outcome<S> = Done(state: S, reply: Reply) | Failed(error: string, wreck: S)

  type Statement<!S> = S -> Outcome<S>

  datatype Savepoint<S> = Savepoint(name: string, state: S)

  /** The newest savepoint of a name shadows the older ones. */
  function Newest<S>(stack: seq<Savepoint<S>>, name: string): (r: Option<nat>)
    ensures r.Some? ==> r.value < |stack| && stack[r.value].name == name
  {
    if stack == [] then None
    else if stack[|stack| - 1].name == name then Some(|stack| - 1)
    else Newest(stack[..|stack| - 1], name)
  }

  /** A transaction-control command shows its own tag and no row count. */
  function Tag(command: string): Reply { Reply(-1, command) }

  /** One session. Commands have as preconditions what the server would reject them
      without, so a verified caller never has one rejected. */
  class Connection<S> {
    var committed: S
    var working: S
    var savepoints: seq<Savepoint<S>>
    var open: bool      // inside BEGIN
    var aborted: bool   // a statement failed; only a rollback is accepted
    var reply: Reply
    const commitCheck: S -> Option<string>   // what deferred constraints say at COMMIT

    constructor (state: S, commitCheck: S -> Option<string>)
      ensures committed == state && !open && savepoints == [] && this.commitCheck == commitCheck
    {
      committed, working, savepoints, open, aborted := state, state, [], false, false;
      reply := Tag("");
      this.commitCheck := commitCheck;
    }

    method Begin()
      requires !open
      modifies this
      ensures committed == old(committed) && working == old(committed)
      ensures open && !aborted && savepoints == []
    {
      working, savepoints, open, aborted, reply := committed, [], true, false, Tag("BEGIN");
    }

    method SetSavepoint(name: string)
      requires open && !aborted
      modifies this
      ensures committed == old(committed) && working == old(working) && open && !aborted
      ensures savepoints == old(savepoints) + [Savepoint(name, old(working))]
    {
      savepoints, reply := savepoints + [Savepoint(name, working)], Tag("SAVEPOINT");
    }

    /** ROLLBACK TO keeps the savepoint it goes back to. */
    method RollbackTo(name: string)
      requires open && Newest(savepoints, name).Some?
      modifies this
      ensures committed == old(committed) && open && !aborted
      ensures var i := Newest(old(savepoints), name).value;
              working == old(savepoints)[i].state && savepoints == old(savepoints)[..i + 1]
    {
      var i := Newest(savepoints, name).value;
      working, savepoints, aborted, reply := savepoints[i].state, savepoints[..i + 1], false, Tag("ROLLBACK");
    }

    /** RELEASE drops the savepoint and keeps the work done under it. */
    method Release(name: string)
      requires open && !aborted && Newest(savepoints, name).Some?
      modifies this
      ensures committed == old(committed) && working == old(working) && open && !aborted
      ensures savepoints == old(savepoints)[..Newest(old(savepoints), name).value]
      ensures reply == Tag("RELEASE")
    {
      savepoints, reply := savepoints[..Newest(savepoints, name).value], Tag("RELEASE");
    }

    method Run(stmt: Statement<S>) returns (error: Option<string>)
      requires open && !aborted
      modifies this
      ensures committed == old(committed) && savepoints == old(savepoints) && open
      ensures match stmt(old(working))
              case Done(s, r) => error == None && working == s && reply == r && !aborted
              case Failed(e, w) => error == Some(e) && working == w && aborted
    {
      match stmt(working)
      case Done(s, r) =>
        working, reply, error := s, r, None;
      case Failed(e, w) =>
        working, aborted, error := w, true, Some(e);
    }

    method Commit() returns (error: Option<string>)
      requires open && !aborted
      modifies this
      ensures !open && savepoints == []
      ensures error == commitCheck(old(working))
      ensures committed == if error.None? then old(working) else old(committed)
    {
      error := commitCheck(working);
      if error.None? {
        committed := working;
      }
      savepoints, open, reply := [], false, Tag("COMMIT");
    }

    method Rollback()
      requires open
      modifies this
      ensures !open && savepoints == [] && committed == old(committed)
    {
      savepoints, open, reply := [], false, Tag("ROLLBACK");
    }
  }

  // -- the simple meaning ------------------------------------------------------

  /** Best effort: run each statement in turn, skipping the ones that fail. */
  function SkipFold<S>(s: S, stmts: seq<Statement<S>>): S
    decreases |stmts|
  {
    if stmts == [] then s
    else SkipFold(match stmts[0](s) case Done(t, _) => t case Failed(_, _) => s, stmts[1..])
  }

  /** All or nothing: run each statement in turn, or stop at the first that fails. */
  function AllFold<S>(s: S, stmts: seq<Statement<S>>): Option<S>
    decreases |stmts|
  {
    if stmts == [] then Some(s)
    else
      match stmts[0](s)
      case Done(t, _) => AllFold(t, stmts[1..])
      case Failed(_, _) => None
  }

  datatype Entry = Ok(reply: Reply) | Err(error: string)

  /** One entry per statement run. An entry for a success shows the cursor as RELEASE
      SAVEPOINT left it. */
  function Entries<S>(s: S, stmts: seq<Statement<S>>, stopOnError: bool): seq<Entry>
    decreases |stmts|
  {
    if stmts == [] then []
    else
      match stmts[0](s)
      case Done(t, _) => [Ok(Tag("RELEASE"))] + Entries(t, stmts[1..], stopOnError)
      case Failed(e, _) => [Err(e)] + (if stopOnError then [] else Entries(s, stmts[1..], stopOnError))
  }

  datatype Failure = Failure(index: nat, error: string)

  /** The first failing statement, counted from `from`. */
  function FirstFailure<S>(s: S, stmts: seq<Statement<S>>, from: nat): Option<Failure>
    decreases |stmts|
  {
    if stmts == [] then None
    else
      match stmts[0](s)
      case Done(t, _) => FirstFailure(t, stmts[1..], from + 1)
      case Failed(e, _) => Some(Failure(from, e))
  }

  // -- the batch ---------------------------------------------------------------

  /** What the call hands back: a report, or the error COMMIT raised. */
  datatype BatchResult =
    | Report(committed: bool, statementCount: nat, results: seq<Entry>, failed: Option<Failure>)
    | Raised(error: string)

  /** What a batch leads to from state `s`: the state the transaction would commit. */
  function Target<S>(s: S, stmts: seq<Statement<S>>, stopOnError: bool): Option<S> {
    if stopOnError then AllFold(s, stmts) else Some(SkipFold(s, stmts))
  }

  predicate AllNamed<S>(stack: seq<Savepoint<S>>, name: string) {
    forall i | 0 <= i < |stack| :: stack[i].name == name
  }

  /** Failures among the entries: the savepoints that were never released. */
  function Failures(results: seq<Entry>): nat {
    if results == [] then 0
    else Failures(results[..|results| - 1]) + (if results[|results| - 1].Err? then 1 else 0)
  }

  /** One statement under its savepoint. Stale savepoints of the same name below it
      change nothing: the newest one is hit. */
  method RunUnderSavepoint<S>(conn: Connection<S>, stmt: Statement<S>) returns (entry: Entry)
    requires conn.open && !conn.aborted
    modifies conn
    ensures conn.open && !conn.aborted && conn.committed == old(conn.committed)
    ensures match stmt(old(conn.working))
            case Done(s, _) =>
              && entry == Ok(Tag("RELEASE")) && conn.working == s
              && conn.savepoints == old(conn.savepoints)
            case Failed(e, _) =>
              && entry == Err(e) && conn.working == old(conn.working)
              && conn.savepoints == old(conn.savepoints) + [Savepoint("mcp_batch", old(conn.working))]
  {
    ghost var stack := conn.savepoints;
    conn.SetSavepoint("mcp_batch");
    assert conn.savepoints[..|stack|] == stack;
    var error := conn.Run(stmt);
    if error.Some? {
      conn.RollbackTo("mcp_batch");
      entry := Err(error.value);
    } else {
      conn.Release("mcp_batch");
      entry := Ok(conn.reply);
    }
  }

  lemma {:induction false} MoreFailures(results: seq<Entry>, e: Entry)
    ensures Failures(results + [e]) == Failures(results) + (if e.Err? then 1 else 0)
  {
    assert (results + [e])[..|results|] == results;
  }

  lemma {:induction false} NoFailures()
    ensures Failures([]) == 0
  {
  }

  /** What is left to do when statements are left, and when none is. */
  lemma {:induction false} Unroll<S>(w: S, rest: seq<Statement<S>>, stopOnError: bool, from: nat)
    ensures rest == [] ==>
              && Target(w, rest, stopOnError) == Some(w) && Entries(w, rest, stopOnError) == []
              && FirstFailure(w, rest, from) == None
    ensures rest != [] ==>
              match rest[0](w)
              case Done(t, _) =>
                && Target(w, rest, stopOnError) == Target(t, rest[1..], stopOnError)
                && Entries(w, rest, stopOnError) == [Ok(Tag("RELEASE"))] + Entries(t, rest[1..], stopOnError)
                && FirstFailure(w, rest, from) == FirstFailure(t, rest[1..], from + 1)
              case Failed(e, _) =>
                && Target(w, rest, stopOnError) == (if stopOnError then None else Target(w, rest[1..], stopOnError))
                && Entries(w, rest, stopOnError)
                   == [Err(e)] + (if stopOnError then [] else Entries(w, rest[1..], stopOnError))
                && FirstFailure(w, rest, from) == Some(Failure(from, e))
  {
  }

  /** The loop. It keeps one stale savepoint per failure so far, all of the same name. */
  method RunStatements<S>(conn: Connection<S>, statements: seq<Statement<S>>, stopOnError: bool)
    returns (results: seq<Entry>, firstFailed: Option<Failure>, aborted: bool)
    requires conn.open && !conn.aborted && conn.savepoints == []
    modifies conn
    ensures conn.open && !conn.aborted && conn.committed == old(conn.committed)
    ensures AllNamed(conn.savepoints, "mcp_batch") && |conn.savepoints| == Failures(results)
    ensures results == Entries(old(conn.working), statements, stopOnError)
    ensures firstFailed == FirstFailure(old(conn.working), statements, 0)
    ensures Target(old(conn.working), statements, stopOnError) == if aborted then None else Some(conn.working)
  {
    hide Target, Entries, FirstFailure, Failures;
    ghost var start := conn.working;
    results, firstFailed, aborted := [], None, false;
    NoFailures();
    assert statements[0..] == statements;
    for i := 0 to |statements|
      invariant conn.open && !conn.aborted && !aborted && conn.committed == old(conn.committed)
      invariant AllNamed(conn.savepoints, "mcp_batch") && |conn.savepoints| == Failures(results)
      invariant stopOnError ==> firstFailed.None?
      invariant Target(start, statements, stopOnError) == Target(conn.working, statements[i..], stopOnError)
      invariant Entries(start, statements, stopOnError)
             == results + Entries(conn.working, statements[i..], stopOnError)
      invariant FirstFailure(start, statements, 0)
             == if firstFailed.Some? then firstFailed else FirstFailure(conn.working, statements[i..], i)
    {
      Unroll(conn.working, statements[i..], stopOnError, i);
      assert statements[i..][1..] == statements[i + 1..];
      var entry := RunUnderSavepoint(conn, statements[i]);
      MoreFailures(results, entry);
      results := results + [entry];
      if entry.Err? {
        if firstFailed.None? {
          firstFailed := Some(Failure(i, entry.error));
        }
        if stopOnError {
          aborted := true;
          break;
        }
      }
    }
    Unroll(conn.working, [], stopOnError, |statements|);
  }

  method ExecuteBatch<S>(conn: Connection<S>, statements: seq<Statement<S>>, stopOnError: bool)
    returns (r: BatchResult)
    requires !conn.open
    modifies conn
    ensures !conn.open && conn.savepoints == []
    ensures var target := Target(old(conn.committed), statements, stopOnError);
            match r
            case Raised(e) =>
              && target.Some? && conn.commitCheck(target.value) == Some(e)
              && conn.committed == old(conn.committed)
            case Report(committed, count, results, failed) =>
              && (committed <==> target.Some?)
              && (committed ==> conn.commitCheck(target.value) == None)
              && conn.committed == (if committed then target.value else old(conn.committed))
              && count == |statements|
              && results == Entries(old(conn.committed), statements, stopOnError)
              && failed == FirstFailure(old(conn.committed), statements, 0)
  {
    conn.Begin();
    var results, firstFailed, aborted := RunStatements(conn, statements, stopOnError);
    var committed := !aborted;
    if committed {
      var error := conn.Commit();
      if error.Some? {
        return Raised(error.value);
      }
    } else {
      conn.Rollback();
    }
    return Report(committed, |statements|, results, firstFailed);
  }

  // -- what the meaning promises -----------------------------------------------

  lemma {:induction false} SkipFoldConcat<S>(s: S, a: seq<Statement<S>>, b: seq<Statement<S>>)
    ensures SkipFold(s, a + b) == SkipFold(SkipFold(s, a), b)
    decreases |a|
  {
    if a == [] {
      assert a + b == b;
    } else {
      assert (a + b)[1..] == a[1..] + b;
      SkipFoldConcat(match a[0](s) case Done(t, _) => t case Failed(_, _) => s, a[1..], b);
    }
  }

  /** The statements a best-effort batch keeps. */
  function Survivors<S>(s: S, stmts: seq<Statement<S>>): seq<Statement<S>>
    decreases |stmts|
  {
    if stmts == [] then []
    else
      match stmts[0](s)
      case Done(t, _) => [stmts[0]] + Survivors(t, stmts[1..])
      case Failed(_, _) => Survivors(s, stmts[1..])
  }

  /** Best effort commits the successful statements together: it leads exactly where
      an atomic batch of just those statements leads. */
  lemma {:induction false} SurvivorsTogether<S>(s: S, stmts: seq<Statement<S>>)
    ensures AllFold(s, Survivors(s, stmts)) == Some(SkipFold(s, stmts))
    decreases |stmts|
  {
    if stmts != [] {
      match stmts[0](s)
      case Done(t, _) =>
        SurvivorsTogether(t, stmts[1..]);
        assert Survivors(s, stmts)[1..] == Survivors(t, stmts[1..]);
      case Failed(_, _) =>
        SurvivorsTogether(s, stmts[1..]);
    }
  }

  /** Does statement `i` fail in the state the earlier ones, failures skipped, lead to? */
  predicate FailsAt<S>(s: S, stmts: seq<Statement<S>>, i: nat)
    requires i < |stmts|
  {
    stmts[i](SkipFold(s, stmts[..i])).Failed?
  }

  lemma {:induction false} FailsAtStep<S>(s: S, stmts: seq<Statement<S>>, i: nat)
    requires 0 < i < |stmts|
    ensures var t := match stmts[0](s) case Done(t, _) => t case Failed(_, _) => s;
            SkipFold(s, stmts[..i]) == SkipFold(t, stmts[1..][..i - 1])
            && (FailsAt(s, stmts, i) <==> FailsAt(t, stmts[1..], i - 1))
  {
    assert stmts[..i][1..] == stmts[1..][..i - 1];
    assert stmts[..i][0] == stmts[0];
  }

  /** The reported failure is the first one: the statement there fails with that
      error, no earlier one fails, and none is reported only if none fails. */
  lemma {:induction false} FirstFailureIsLeast<S>(s: S, stmts: seq<Statement<S>>, from: nat)
    ensures match FirstFailure(s, stmts, from)
            case None => forall i | 0 <= i < |stmts| :: !FailsAt(s, stmts, i)
            case Some(f) =>
              && from <= f.index < from + |stmts|
              && FailsAt(s, stmts, f.index - from)
              && stmts[f.index - from](SkipFold(s, stmts[..f.index - from])).error == f.error
              && forall i | 0 <= i < f.index - from :: !FailsAt(s, stmts, i)
    decreases |stmts|
  {
    if stmts != [] {
      assert stmts[..0] == [];
      match stmts[0](s)
      case Failed(_, _) =>
      case Done(t, _) =>
        FirstFailureIsLeast(t, stmts[1..], from + 1);
        forall i | 0 < i < |stmts|
          ensures FailsAt(s, stmts, i) <==> FailsAt(t, stmts[1..], i - 1)
          ensures SkipFold(s, stmts[..i]) == SkipFold(t, stmts[1..][..i - 1])
        {
          FailsAtStep(s, stmts, i);
        }
    }
  }

  /** A failure entry is that of a failed statement, with its own error. */
  predicate EntryMatches<S>(e: Entry, s: S, stmts: seq<Statement<S>>, i: nat)
    requires i < |stmts|
  {
    && (e.Err? <==> FailsAt(s, stmts, i))
    && (e.Err? ==> e.error == stmts[i](SkipFold(s, stmts[..i])).error)
  }

  /** The entries match the run: all statements, or up to the first failure when it
      stops the batch; each entry is a failure exactly when its statement failed, and then
      it is that statement's own. */
  lemma {:induction false} EntriesMatchRun<S>(s: S, stmts: seq<Statement<S>>, stopOnError: bool)
    ensures var es, f := Entries(s, stmts, stopOnError), FirstFailure(s, stmts, 0);
            && |es| == (if stopOnError && f.Some? then f.value.index + 1 else |stmts|)
            && |es| <= |stmts|
            && forall i | 0 <= i < |es| :: EntryMatches(es[i], s, stmts, i)
  {
    EntriesFrom(s, stmts, stopOnError, 0);
  }

  lemma {:induction false} EntriesFrom<S>(s: S, stmts: seq<Statement<S>>, stopOnError: bool, from: nat)
    ensures var es, f := Entries(s, stmts, stopOnError), FirstFailure(s, stmts, from);
            && (f.Some? ==> f.value.index >= from)
            && |es| == (if stopOnError && f.Some? then f.value.index + 1 - from else |stmts|)
            && |es| <= |stmts|
            && forall i | 0 <= i < |es| :: EntryMatches(es[i], s, stmts, i)
    decreases |stmts|
  {
    if stmts != [] {
      assert stmts[..0] == [];
      var t := match stmts[0](s) case Done(t, _) => t case Failed(_, _) => s;
      EntriesFrom(t, stmts[1..], stopOnError, from + 1);
      var es, rest := Entries(s, stmts, stopOnError), Entries(t, stmts[1..], stopOnError);
      forall i | 0 < i < |es|
        ensures EntryMatches(es[i], s, stmts, i)
      {
        assert es[i] == rest[i - 1] && EntryMatches(rest[i - 1], t, stmts[1..], i - 1);
        FailsAtStep(s, stmts, i);
      }
    }
  }

  /** An atomic batch goes through exactly when no statement fails, and then it leads
      where the best-effort batch leads. */
  lemma {:induction false} AtomicAgrees<S>(s: S, stmts: seq<Statement<S>>)
    ensures AllFold(s, stmts) == if FirstFailure(s, stmts, 0).None? then Some(SkipFold(s, stmts)) else None
  {
    AtomicFrom(s, stmts, 0);
  }

  lemma {:induction false} AtomicFrom<S>(s: S, stmts: seq<Statement<S>>, from: nat)
    ensures AllFold(s, stmts) == if FirstFailure(s, stmts, from).None? then Some(SkipFold(s, stmts)) else None
    decreases |stmts|
  {
    if stmts != [] {
      match stmts[0](s)
      case Done(t, _) => AtomicFrom(t, stmts[1..], from + 1);
      case Failed(_, _) =>
    }
  }

  /** What a success entry was meant to record: the statement's own row count and
      status. It does so exactly when the statement answers just like RELEASE. */
  lemma {:induction false} EntryRecordsRelease<S>(s: S, stmts: seq<Statement<S>>, stopOnError: bool, i: nat)
    requires i < |Entries(s, stmts, stopOnError)| && Entries(s, stmts, stopOnError)[i].Ok?
    ensures i < |stmts| && stmts[i](SkipFold(s, stmts[..i])).Done?
    ensures Entries(s, stmts, stopOnError)[i] == Ok(stmts[i](SkipFold(s, stmts[..i])).reply)
            <==> stmts[i](SkipFold(s, stmts[..i])).reply == Reply(-1, "RELEASE")
  {
    EntriesMatchRun(s, stmts, stopOnError);
    OkIsRelease(s, stmts, stopOnError, i);
    assert EntryMatches(Entries(s, stmts, stopOnError)[i], s, stmts, i);
    assert !FailsAt(s, stmts, i);
  }

  lemma {:induction false} OkIsRelease<S>(s: S, stmts: seq<Statement<S>>, stopOnError: bool, i: nat)
    requires i < |Entries(s, stmts, stopOnError)| && Entries(s, stmts, stopOnError)[i].Ok?
    ensures Entries(s, stmts, stopOnError)[i] == Ok(Tag("RELEASE"))
    decreases |stmts|
  {
    if i > 0 {
      var t := match stmts[0](s) case Done(t, _) => t case Failed(_, _) => s;
      var es, rest := Entries(s, stmts, stopOnError), Entries(t, stmts[1..], stopOnError);
      assert es[i] == rest[i - 1];
      OkIsRelease(t, stmts[1..], stopOnError, i - 1);
    }
  }
}
