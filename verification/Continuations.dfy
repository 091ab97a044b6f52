/**
 * The provider continuation a run carries from turn to turn (crates/morons-server/src/run_supervisor.rs),
 * against the transcript its next request is built from.
 */
module Continuations {
  import opened Basics
  import opened ProviderInput

  /** A committed tool call with what the provider attached to it. */
  datatype CommittedCall = CommittedCall(callId: CallId, name: string, arguments: Option<Text>, attached: Option<string>)

  /** What happens between two requests of one run. `others` and `commentary` are entries of other kinds. */
  datatype Move =
    | ToolTurn(operation: nat, commentary: seq<Entry>, calls: seq<CommittedCall>, reasoning: seq<nat>, others: seq<Entry>)
    | Cleared(entries: seq<Entry>)  // a completed compaction, or a context the provider rejected

  datatype Carried = Carried(entries: seq<Entry>, continuation: Continuation)

  function SavedOf(calls: seq<CommittedCall>): seq<SavedCall>
  {
    if calls == [] then []
    else
      var last := calls[|calls| - 1];
      SavedOf(calls[..|calls| - 1])
      + (if last.attached.Some? then [SavedCall(last.callId, last.attached.value)] else [])
  }

  /** Reasoning of the last tool turn only; continuations of every call since the last clearing. */
  function Extended(previous: Continuation, operation: nat, calls: seq<CommittedCall>, reasoning: seq<nat>): Continuation
  {
    Continuation(if reasoning == [] then None else Some(Reasoning(operation, reasoning)), previous.toolCalls + SavedOf(calls))
  }

  function CallEntries(operation: nat, calls: seq<CommittedCall>): seq<Entry>
  {
    seq(|calls|, i requires 0 <= i < |calls| => ToolCall(calls[i].callId, operation, calls[i].name, calls[i].arguments))
  }

  function Apply(s: Carried, move: Move): Carried
  {
    match move
    case ToolTurn(operation, commentary, calls, reasoning, others) =>
      Carried(s.entries + commentary + CallEntries(operation, calls) + others,
              Extended(s.continuation, operation, calls, reasoning))
    case Cleared(entries) => Carried(entries, NO_CONTINUATION)
  }

  function Run(s: Carried, moves: seq<Move>): Carried
    decreases |moves|
  {
    if moves == [] then s else Run(Apply(s, moves[0]), moves[1..])
  }

  predicate NoCalls(entries: seq<Entry>)
  {
    forall i :: 0 <= i < |entries| ==> !entries[i].ToolCall?
  }

  /** What normalization and the store guarantee: a tool turn has a call, and call identifiers are new. */
  ghost predicate Possible(s: Carried, move: Move)
  {
    && DistinctCalls(Apply(s, move).entries)
    && (move.ToolTurn? ==> move.calls != [] && NoCalls(move.commentary) && NoCalls(move.others))
  }

  ghost predicate AllPossible(s: Carried, moves: seq<Move>)
    decreases |moves|
  {
    moves == [] || (Possible(s, moves[0]) && AllPossible(Apply(s, moves[0]), moves[1..]))
  }

  predicate HasCall(entries: seq<Entry>, id: CallId)
  {
    exists k :: 0 <= k < |entries| && entries[k].ToolCall? && entries[k].callId == id
  }

  /** The saved continuations are those of transcript calls, in the transcript's order. */
  ghost predicate Inv(s: Carried)
  {
    && DistinctCalls(s.entries)
    && Found(s.entries, s.continuation.toolCalls) == SavedIds(s.continuation.toolCalls)
    && (forall id :: Saved(s.continuation.toolCalls, id).Some? ==> HasCall(s.entries, id))
    && (s.continuation.reasoning.Some? ==>
          exists k :: 0 <= k < |s.entries| && IsCallOf(s.entries[k], s.continuation.reasoning.value.operation))
  }

  // ----- lookups over longer lists -----

  lemma {:induction false} SavedConcat(a: seq<SavedCall>, b: seq<SavedCall>, id: CallId)
    ensures Saved(a + b, id) == if Saved(a, id).Some? then Saved(a, id) else Saved(b, id)
  {
    if a == [] {
      assert a + b == b;
    } else {
      assert (a + b)[1..] == a[1..] + b;
      SavedConcat(a[1..], b, id);
    }
  }

  lemma {:induction false} FoundConcat(a: seq<Entry>, b: seq<Entry>, calls: seq<SavedCall>)
    ensures Found(a + b, calls) == Found(a, calls) + Found(b, calls)
  {
    if b == [] {
      assert a + b == a;
    } else {
      var last := |b| - 1;
      assert (a + b)[..|a + b| - 1] == a + b[..last];
      FoundConcat(a, b[..last], calls);
    }
  }

  lemma {:induction false} NothingFound(entries: seq<Entry>, calls: seq<SavedCall>)
    requires NoCalls(entries)
    ensures Found(entries, calls) == []
  {
    if entries != [] { NothingFound(entries[..|entries| - 1], calls); }
  }

  /** The same transcript finds the same calls in two lists that agree on its identifiers. */
  lemma {:induction false} FoundAlike(entries: seq<Entry>, a: seq<SavedCall>, b: seq<SavedCall>)
    requires forall k :: 0 <= k < |entries| && entries[k].ToolCall? ==>
               (Saved(a, entries[k].callId).Some? <==> Saved(b, entries[k].callId).Some?)
    ensures Found(entries, a) == Found(entries, b)
  {
    if entries != [] { FoundAlike(entries[..|entries| - 1], a, b); }
  }

  lemma {:induction false} SavedIdsConcat(a: seq<SavedCall>, b: seq<SavedCall>)
    ensures SavedIds(a + b) == SavedIds(a) + SavedIds(b)
  {
  }

  // ----- the calls of one turn -----

  predicate DistinctIds(calls: seq<CommittedCall>)
  {
    forall i, j :: 0 <= i < j < |calls| ==> calls[i].callId != calls[j].callId
  }

  /** Only the call itself decides what is saved under its identifier. */
  lemma {:induction false} SavedOfMeans(calls: seq<CommittedCall>, id: CallId)
    requires DistinctIds(calls)
    ensures (forall i :: 0 <= i < |calls| ==> calls[i].callId != id) ==> Saved(SavedOf(calls), id) == None
    ensures forall i :: 0 <= i < |calls| && calls[i].callId == id ==> Saved(SavedOf(calls), id) == calls[i].attached
  {
    if calls != [] {
      var front, last := calls[..|calls| - 1], calls[|calls| - 1];
      SavedOfMeans(front, id);
      var saved := if last.attached.Some? then [SavedCall(last.callId, last.attached.value)] else [];
      SavedConcat(SavedOf(front), saved, id);
      assert forall i :: 0 <= i < |front| ==> front[i] == calls[i];
    }
  }

  /** A turn's entries find exactly what the turn saved, in order. */
  lemma {:induction false} TurnFinds(operation: nat, calls: seq<CommittedCall>, all: seq<SavedCall>)
    requires forall i :: 0 <= i < |calls| ==> Saved(all, calls[i].callId) == calls[i].attached
    ensures Found(CallEntries(operation, calls), all) == SavedIds(SavedOf(calls))
  {
    if calls != [] {
      var front, last := calls[..|calls| - 1], calls[|calls| - 1];
      TurnFinds(operation, front, all);
      assert CallEntries(operation, calls)[..|calls| - 1] == CallEntries(operation, front);
      SavedIdsConcat(SavedOf(front), if last.attached.Some? then [SavedCall(last.callId, last.attached.value)] else []);
    }
  }

  /** Where a turn's calls stand in the transcript after it. */
  lemma {:induction false} CallPlace(s: Carried, move: Move, i: nat)
    requires move.ToolTurn? && i < |move.calls|
    ensures var k := |s.entries| + |move.commentary| + i;
            k < |Apply(s, move).entries|
            && Apply(s, move).entries[k]
               == ToolCall(move.calls[i].callId, move.operation, move.calls[i].name, move.calls[i].arguments)
  {
  }

  lemma {:induction false} NewCalls(s: Carried, move: Move)
    requires move.ToolTurn? && Possible(s, move)
    ensures DistinctIds(move.calls) && DistinctCalls(s.entries)
    ensures forall i :: 0 <= i < |move.calls| ==> !HasCall(s.entries, move.calls[i].callId)
  {
    var after := Apply(s, move).entries;
    assert forall k :: 0 <= k < |s.entries| ==> after[k] == s.entries[k];
    forall i, j | 0 <= i < j < |move.calls| ensures move.calls[i].callId != move.calls[j].callId {
      CallPlace(s, move, i);
      CallPlace(s, move, j);
    }
    forall i | 0 <= i < |move.calls| ensures !HasCall(s.entries, move.calls[i].callId) {
      CallPlace(s, move, i);
    }
  }

  /** After a turn each of its calls is saved with what came with it, and older calls as they were. */
  lemma {:induction false} SavedAfterTurn(s: Carried, move: Move)
    requires Inv(s) && move.ToolTurn? && Possible(s, move)
    ensures var all := Apply(s, move).continuation.toolCalls;
            && (forall i :: 0 <= i < |move.calls| ==> Saved(all, move.calls[i].callId) == move.calls[i].attached)
            && (forall id :: HasCall(s.entries, id) ==> Saved(all, id) == Saved(s.continuation.toolCalls, id))
            && (forall id :: Saved(all, id).Some? ==>
                  HasCall(s.entries, id) || exists i :: 0 <= i < |move.calls| && move.calls[i].callId == id)
  {
    hide HasCall, Found, Saved, SavedOf, DistinctCalls, DistinctIds;
    NewCalls(s, move);
    var before, added := s.continuation.toolCalls, SavedOf(move.calls);
    forall id
      ensures Saved(before + added, id) == if Saved(before, id).Some? then Saved(before, id) else Saved(added, id)
      ensures (forall i :: 0 <= i < |move.calls| ==> move.calls[i].callId != id) ==> Saved(added, id) == None
      ensures forall i :: 0 <= i < |move.calls| && move.calls[i].callId == id ==> Saved(added, id) == move.calls[i].attached
    {
      SavedConcat(before, added, id);
      SavedOfMeans(move.calls, id);
    }
  }

  lemma {:induction false} OldCallsFoundAgain(s: Carried, move: Move)
    requires Inv(s) && move.ToolTurn? && Possible(s, move)
    ensures Found(s.entries, Apply(s, move).continuation.toolCalls) == Found(s.entries, s.continuation.toolCalls)
  {
    SavedAfterTurn(s, move);
    hide Inv, Possible, Found, Saved, SavedOf, Extended;
    var all := Apply(s, move).continuation.toolCalls;
    forall k | 0 <= k < |s.entries| && s.entries[k].ToolCall?
      ensures Saved(all, s.entries[k].callId) == Saved(s.continuation.toolCalls, s.entries[k].callId)
    {
      assert HasCall(s.entries, s.entries[k].callId);
    }
    FoundAlike(s.entries, s.continuation.toolCalls, all);
  }

  lemma {:induction false} FoundInParts(before: seq<Entry>, commentary: seq<Entry>, made: seq<Entry>, others: seq<Entry>,
        all: seq<SavedCall>)
    requires NoCalls(commentary) && NoCalls(others)
    ensures Found(before + commentary + made + others, all) == Found(before, all) + Found(made, all)
  {
    hide Found;
    NothingFound(commentary, all);
    NothingFound(others, all);
    FoundConcat(before, commentary, all);
    FoundConcat(before + commentary, made, all);
    FoundConcat(before + commentary + made, others, all);
  }

  lemma {:induction false} TurnKeepsOrder(s: Carried, move: Move)
    requires Inv(s) && move.ToolTurn? && Possible(s, move)
    ensures var after := Apply(s, move);
            Found(after.entries, after.continuation.toolCalls) == SavedIds(after.continuation.toolCalls)
  {
    SavedAfterTurn(s, move);
    OldCallsFoundAgain(s, move);
    hide HasCall, Found, Saved, SavedOf, DistinctCalls, SavedIds, CallEntries;
    var all := Apply(s, move).continuation.toolCalls;
    TurnFinds(move.operation, move.calls, all);
    FoundInParts(s.entries, move.commentary, CallEntries(move.operation, move.calls), move.others, all);
    SavedIdsConcat(s.continuation.toolCalls, SavedOf(move.calls));
  }

  lemma {:induction false} TurnKeepsInv(s: Carried, move: Move)
    requires Inv(s) && move.ToolTurn? && Possible(s, move)
    ensures Inv(Apply(s, move))
  {
    TurnKeepsOrder(s, move);
    SavedAfterTurn(s, move);
    var after := Apply(s, move);
    hide Found, Saved, SavedOf, DistinctCalls, SavedIds;
    assert forall k :: 0 <= k < |s.entries| ==> after.entries[k] == s.entries[k];
    forall id | HasCall(s.entries, id) ensures HasCall(after.entries, id) {
      var k :| 0 <= k < |s.entries| && s.entries[k].ToolCall? && s.entries[k].callId == id;
      assert after.entries[k].callId == id;
    }
    forall i | 0 <= i < |move.calls| ensures HasCall(after.entries, move.calls[i].callId) {
      CallPlace(s, move, i);
    }
    CallPlace(s, move, 0);
  }

  lemma {:induction false} RunKeepsInv(s: Carried, moves: seq<Move>)
    requires Inv(s) && AllPossible(s, moves)
    ensures Inv(Run(s, moves))
    decreases |moves|
  {
    hide Inv, Possible, Apply;
    if moves != [] {
      if moves[0].ToolTurn? {
        TurnKeepsInv(s, moves[0]);
      } else {
        ClearedInv(s, moves[0]);
      }
      RunKeepsInv(Apply(s, moves[0]), moves[1..]);
    }
  }

  lemma {:induction false} ClearedInv(s: Carried, move: Move)
    requires move.Cleared? && Possible(s, move)
    ensures Inv(Apply(s, move))
  {
    NothingSaved(move.entries);
  }

  lemma {:induction false} NothingSaved(entries: seq<Entry>)
    requires DistinctCalls(entries)
    ensures Inv(Carried(entries, NO_CONTINUATION))
  {
    NothingToFind(entries);
  }

  lemma {:induction false} NothingToFind(entries: seq<Entry>)
    ensures Found(entries, []) == []
  {
    if entries != [] { NothingToFind(entries[..|entries| - 1]); }
  }

  /**
   * Whatever turns, compactions and rejections a run has behind it, the continuation it carries is used up
   * by its next request, so that request fails only for an entry that cannot be sent.
   */
  lemma {:induction false} CarriedIsUsedUp(entries: seq<Entry>, moves: seq<Move>, context: Context)
    requires DistinctCalls(entries) && AllPossible(Carried(entries, NO_CONTINUATION), moves)
    requires context.entries == Run(Carried(entries, NO_CONTINUATION), moves).entries
    ensures var continuation := Run(Carried(entries, NO_CONTINUATION), moves).continuation;
            && UsedUp(context.entries, continuation)
            && (Buildable(context, continuation)
                <==> VersionsKnown(context)
                     && forall k :: 0 <= k < |context.entries| ==> Sendable(context.entries[k], context.data))
  {
    NothingSaved(entries);
    RunKeepsInv(Carried(entries, NO_CONTINUATION), moves);
  }

  lemma {:induction false} LaterTurnsKeep(s: Carried, moves: seq<Move>, id: CallId)
    requires Inv(s) && AllPossible(s, moves) && (forall i :: 0 <= i < |moves| ==> moves[i].ToolTurn?)
    requires HasCall(s.entries, id)
    ensures HasCall(Run(s, moves).entries, id)
    ensures Saved(Run(s, moves).continuation.toolCalls, id) == Saved(s.continuation.toolCalls, id)
    decreases |moves|
  {
    if moves != [] {
      var next := Apply(s, moves[0]);
      SavedAfterTurn(s, moves[0]);
      TurnKeepsInv(s, moves[0]);
      var k :| 0 <= k < |s.entries| && s.entries[k].ToolCall? && s.entries[k].callId == id;
      assert next.entries[k] == s.entries[k];
      hide Inv, Possible, Saved;
      LaterTurnsKeep(next, moves[1..], id);
    }
  }

  /**
   * Until the continuation is cleared, every call goes back to the provider in every request with exactly
   * what the provider attached to it, and with nothing if it attached nothing.
   */
  lemma {:induction false} CallsKeepTheirContinuation(entries: seq<Entry>, moves: seq<Move>, turn: Move,
        later: seq<Move>, i: nat, data: map<nat, seq<Byte>>)
    returns (k: nat)
    requires DistinctCalls(entries) && AllPossible(Carried(entries, NO_CONTINUATION), moves)
    requires var s := Run(Carried(entries, NO_CONTINUATION), moves);
             turn.ToolTurn? && i < |turn.calls| && Possible(s, turn) && AllPossible(Apply(s, turn), later)
    requires forall j :: 0 <= j < |later| ==> later[j].ToolTurn?
    ensures var final := Run(Apply(Run(Carried(entries, NO_CONTINUATION), moves), turn), later);
            && k < |final.entries| && final.entries[k].ToolCall? && final.entries[k].callId == turn.calls[i].callId
            && forall items: seq<Item> :: Renders(final.entries[k], final.continuation.toolCalls, data, items) ==>
                 |items| == 1 && items[0].FunctionCall? && items[0].continuation == turn.calls[i].attached
  {
    var s := Run(Carried(entries, NO_CONTINUATION), moves);
    NothingSaved(entries);
    RunKeepsInv(Carried(entries, NO_CONTINUATION), moves);
    SavedAfterTurn(s, turn);
    TurnKeepsInv(s, turn);
    CallPlace(s, turn, i);
    LaterTurnsKeep(Apply(s, turn), later, turn.calls[i].callId);
    var final := Run(Apply(s, turn), later);
    hide Inv, Possible, AllPossible, Run, Apply, Saved;
    k :| 0 <= k < |final.entries| && final.entries[k].ToolCall? && final.entries[k].callId == turn.calls[i].callId;
  }
}
