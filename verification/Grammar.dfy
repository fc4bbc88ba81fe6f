/** The words that the event log of an operation can spell, and what they determine. */
module Grammar {
  import opened Wrappers
  import opened Journal
  import opened Protocol
  import opened Dispatch

  /** The log without the two kinds of event that may be appended at any time. */
  function Core(log: seq<Kind>): seq<Kind> {
    if log == [] then []
    else
      var n := |log| - 1;
      Core(log[..n]) + (if log[n].LogReconciled? || log[n].LogPreflightUnavailable? then [] else [log[n]])
  }

  predicate Outcome(k: Kind) { k.LogAcknowledged? || k.LogRejected? || k.LogUncertain? }

  /** What follows the intent of an operation and its optional conditions. */
  function Rest(word: seq<Kind>): seq<Kind>
    requires word != []
  {
    if |word| > 1 && word[1].LogConditionsRecorded? then word[2..] else word[1..]
  }

  /** `(rejected budget_released? | dispatching (acknowledged | rejected | uncertain)?)?` */
  predicate Tail(t: seq<Kind>) {
    && |t| <= 2
    && (|t| >= 1 ==> t[0].LogRejected? || t[0].LogDispatching?)
    && (|t| == 2 ==> if t[0].LogRejected? then t[1].LogBudgetReleased? else Outcome(t[1]))
  }

  /** `rejected | prepared conditions_recorded? Tail` */
  predicate InGrammar(word: seq<Kind>) {
    word == [LogRejected] || (word != [] && word[0].LogPrepared? && Tail(Rest(word)))
  }

  /** A rejection before the claim that has not been released: only ever seen inside a transaction. */
  predicate Unreleased(word: seq<Kind>) {
    word != [] && word[0].LogPrepared? && Rest(word) == [LogRejected]
  }

  /** Read off a word: the row it stands for, before any reconciliation is taken into account. */
  function WordState(word: seq<Kind>): Replayed
    requires word != []
  {
    var last := word[|word| - 1];
    match last
    case LogPrepared => Replayed(Prepared, true)
    case LogConditionsRecorded => Replayed(Prepared, true)
    case LogRejected => Replayed(Rejected, |word| > 1)
    case LogBudgetReleased => Replayed(Rejected, false)
    case LogDispatching => Replayed(Dispatching, true)
    case LogAcknowledged => Replayed(Acknowledged, true)
    case LogUncertain => Replayed(Uncertain, true)
    case _ => Replayed(Prepared, true)
  }

  /** A reconciliation has been logged after the dispatch claim. */
  predicate ReconciledSinceClaim(log: seq<Kind>) {
    exists i, j :: 0 <= i < j < |log| && log[i] == LogDispatching && log[j] == LogReconciled
  }

  /** State and reservation are a function of the word, plus whether the dispatch was reconciled. */
  function Determined(log: seq<Kind>): Replayed
    requires Core(log) != []
  {
    var r := WordState(Core(log));
    if r.state.Dispatching? && ReconciledSinceClaim(log) then r.(state := Uncertain) else r
  }

  lemma CoreAppend(log: seq<Kind>, k: Kind)
    ensures Core(log + [k]) == Core(log) + (if k.LogReconciled? || k.LogPreflightUnavailable? then [] else [k])
  {
    assert (log + [k])[..|log|] == log;
  }

  lemma {:induction false} CoreMembers(log: seq<Kind>, k: Kind)
    requires !k.LogReconciled? && !k.LogPreflightUnavailable?
    ensures k in log <==> k in Core(log)
  {
    if log != [] {
      var n := |log| - 1;
      assert log == log[..n] + [log[n]];
      CoreMembers(log[..n], k);
    }
  }

  lemma ReconciledAppend(log: seq<Kind>, k: Kind)
    ensures ReconciledSinceClaim(log + [k]) <==>
            ReconciledSinceClaim(log) || (k.LogReconciled? && LogDispatching in log)
  {
    var all := log + [k];
    if ReconciledSinceClaim(log) {
      var i, j :| 0 <= i < j < |log| && log[i] == LogDispatching && log[j] == LogReconciled;
      assert all[i] == LogDispatching && all[j] == LogReconciled;
    }
    if k.LogReconciled? && LogDispatching in log {
      var i :| 0 <= i < |log| && log[i] == LogDispatching;
      assert all[i] == LogDispatching && all[|log|] == LogReconciled;
    }
    if ReconciledSinceClaim(all) {
      var i, j :| 0 <= i < j < |all| && all[i] == LogDispatching && all[j] == LogReconciled;
      assert log[i] == LogDispatching;
      if j < |log| { assert log[j] == LogReconciled; }
    }
  }

  lemma RestAppend(word: seq<Kind>, k: Kind)
    requires word != []
    ensures |word| > 1 || !k.LogConditionsRecorded? ==> Rest(word + [k]) == Rest(word) + [k]
    ensures |word| == 1 && k.LogConditionsRecorded? ==> Rest(word + [k]) == []
  {
    if |word| > 1 {
      assert (word + [k])[2..] == word[2..] + [k];
    }
    assert (word + [k])[1..] == word[1..] + [k];
  }

  /** The last event of a word decides what may come next. */
  lemma WordStep(word: seq<Kind>, k: Kind)
    requires InGrammar(word)
    requires var last := word[|word| - 1];
             match k
             case LogConditionsRecorded => last.LogPrepared?
             case LogDispatching => last.LogPrepared? || last.LogConditionsRecorded?
             case LogRejected => last.LogPrepared? || last.LogConditionsRecorded? || last.LogDispatching?
             case LogAcknowledged => last.LogDispatching?
             case LogUncertain => last.LogDispatching?
             case LogBudgetReleased => last.LogRejected? && |word| > 1 && LogDispatching !in word
             case _ => false
    ensures InGrammar(word + [k])
  {
    RestAppend(word, k);
    var t := Rest(word);
    if word != [LogRejected] {
      assert forall x :: x in t ==> x in word;
      if t != [] { assert t[|t| - 1] == word[|word| - 1]; }
    }
  }

  lemma RestEnds(word: seq<Kind>)
    requires InGrammar(word) && word != [LogRejected]
    ensures Rest(word) == [] ==> word == [LogPrepared] || word == [LogPrepared, LogConditionsRecorded]
    ensures Rest(word) != [] ==> Rest(word)[|Rest(word)| - 1] == word[|word| - 1]
    ensures forall x :: x in word <==> x.LogPrepared? || (x.LogConditionsRecorded? && x in word) || x in Rest(word)
  {
    var t := Rest(word);
    if |word| > 1 && word[1].LogConditionsRecorded? {
      assert word == [word[0], word[1]] + t;
    } else {
      assert word == [word[0]] + t;
    }
  }

  /** The last event decides what may come next. */
  lemma LastDecides(log: seq<Kind>, k: Kind)
    requires log != [] && Replay(log).Some? && ReplayKind(log, Replay(log).value, k).Some?
    requires Core(log) != [] && InGrammar(Core(log)) && Determined(log) == Replay(log).value
    ensures var last := Core(log)[|Core(log)| - 1];
            && (k.LogConditionsRecorded? ==> last.LogPrepared?)
            && (Unrecorded(log, Replay(log).value) ==> last.LogDispatching?)
  {
    CoreMembers(log, LogConditionsRecorded);
    CoreMembers(log, LogUncertain);
    CoreMembers(log, LogDispatching);
    if Core(log) != [LogRejected] { RestEnds(Core(log)); }
  }

  lemma GrammarStep(log: seq<Kind>, k: Kind)
    requires log != [] && Replay(log).Some? && ReplayKind(log, Replay(log).value, k).Some?
    requires Core(log) != [] && InGrammar(Core(log)) && Determined(log) == Replay(log).value
    requires !k.LogReconciled? && !k.LogPreflightUnavailable?
    ensures InGrammar(Core(log) + [k])
  {
    LastDecides(log, k);
    CoreMembers(log, LogDispatching);
    if Core(log) != [LogRejected] { RestEnds(Core(log)); }
    if k.LogBudgetReleased? {
      assert log == log[..|log| - 1] + [LogRejected];
      CoreAppend(log[..|log| - 1], LogRejected);
    }
    WordStep(Core(log), k);
  }

  lemma NoDispatchBefore(word: seq<Kind>)
    requires InGrammar(word) && (word[|word| - 1].LogPrepared? || word[|word| - 1].LogConditionsRecorded?)
    ensures LogDispatching !in word
  {
    if word != [LogRejected] { RestEnds(word); }
  }

  lemma DeterminedStep(log: seq<Kind>, k: Kind)
    requires log != [] && Replay(log).Some? && ReplayKind(log, Replay(log).value, k).Some?
    requires Core(log) != [] && InGrammar(Core(log)) && Determined(log) == Replay(log).value
    requires !k.LogReconciled? && !k.LogPreflightUnavailable?
    requires Core(log + [k]) == Core(log) + [k]
    ensures Determined(log + [k]) == ReplayKind(log, Replay(log).value, k).value
  {
    ReconciledAppend(log, k);
    CoreMembers(log, LogDispatching);
    if k.LogDispatching? {
      NoDispatchBefore(Core(log));
    }
  }

  /** The two events that leave the word alone. */
  lemma NoteStep(log: seq<Kind>, k: Kind)
    requires log != [] && Replay(log).Some? && (k.LogReconciled? || k.LogPreflightUnavailable?)
    requires Core(log) != [] && Determined(log) == Replay(log).value
    requires Core(log + [k]) == Core(log)
    ensures Determined(log + [k]) == ReplayKind(log, Replay(log).value, k).value
  {
    ReconciledAppend(log, k);
    CoreMembers(log, LogDispatching);
    if WordState(Core(log)).state.Dispatching? {
      assert Core(log)[|Core(log)| - 1] == LogDispatching;
    }
  }

  /** Every log that replays spells a word of the grammar, and the word determines what it replays to. */
  lemma {:induction false} LogSpellsWord(log: seq<Kind>)
    requires Replay(log).Some?
    ensures Core(log) != [] && InGrammar(Core(log))
    ensures Determined(log) == Replay(log).value
  {
    var n := |log| - 1;
    assert log == log[..n] + [log[n]];
    if n == 0 {
      assert log[..0] == [];
      assert Core(log) == [log[0]];
      assert log == [log[0]];
    } else {
      LogSpellsWord(log[..n]);
      CoreAppend(log[..n], log[n]);
      if log[n].LogReconciled? || log[n].LogPreflightUnavailable? {
        NoteStep(log[..n], log[n]);
      } else {
        GrammarStep(log[..n], log[n]);
        DeterminedStep(log[..n], log[n]);
      }
    }
  }

  lemma LogFacts(w: World, id: string)
    requires Fine(w, id)
    ensures var log := LogOf(w.events, id);
            && log != [] && Replay(log) == Some(Replayed(w.rows[id].state, w.rows[id].reserved))
            && (LogDispatching in log <==> id in w.flights)
            && (id !in w.flights && w.rows[id].state.Rejected? ==> !w.rows[id].reserved)
  {
  }

  lemma CancelledFacts(w: World, id: string)
    requires Fine(w, id)
    ensures FateOf(w, id).Cancelled? <==> id !in w.flights && w.rows[id].state.Rejected?
  {
  }

  /**
    In every reachable world: the log of an operation spells a word of the grammar, no rejection before a
    claim stands without its release, and the log alone gives the state and the reservation in the row.
   */
  lemma JournalGrammar(w: World, id: string)
    requires Inv(w) && id in w.rows
    ensures var log := LogOf(w.events, id);
            && Core(log) != [] && InGrammar(Core(log)) && !Unreleased(Core(log))
            && Determined(log) == Replayed(w.rows[id].state, w.rows[id].reserved)
  {
    InvFine(w, id);
    LogFacts(w, id);
    FactsInGrammar(LogOf(w.events, id), w.rows[id].state, w.rows[id].reserved, id in w.flights);
  }

  lemma FactsInGrammar(log: seq<Kind>, state: State, reserved: bool, claimed: bool)
    requires Replay(log) == Some(Replayed(state, reserved)) && (LogDispatching in log <==> claimed)
    requires !claimed && state.Rejected? ==> !reserved
    ensures Core(log) != [] && InGrammar(Core(log)) && !Unreleased(Core(log))
    ensures Determined(log) == Replayed(state, reserved)
  {
    LogSpellsWord(log);
    CoreMembers(log, LogDispatching);
    if Unreleased(Core(log)) { RestEnds(Core(log)); }
  }

  lemma TailCount(t: seq<Kind>)
    requires Tail(t)
    ensures multiset(t)[LogBudgetReleased] == if |t| == 2 && t[1].LogBudgetReleased? then 1 else 0
    ensures LogBudgetReleased in t <==> |t| == 2 && t[1].LogBudgetReleased?
  {
    if |t| == 2 { assert t == [t[0], t[1]]; }
    if |t| == 1 { assert t == [t[0]]; }
  }

  lemma ReleaseShape(word: seq<Kind>)
    requires InGrammar(word) && !Unreleased(word)
    ensures multiset(word)[LogBudgetReleased] <= 1
    ensures LogBudgetReleased in word <==>
            LogPrepared in word && LogDispatching !in word && WordState(word).state.Rejected?
  {
    if word != [LogRejected] {
      RestEnds(word);
      TailCount(Rest(word));
      RestCount(word, LogBudgetReleased);
    }
  }

  lemma RestCount(word: seq<Kind>, k: Kind)
    requires word != [] && word[0] != k && !k.LogConditionsRecorded?
    ensures multiset(word)[k] == multiset(Rest(word))[k]
  {
    if |word| > 1 && word[1].LogConditionsRecorded? {
      assert word == [word[0], word[1]] + word[2..];
    } else {
      assert word == [word[0]] + word[1..];
    }
  }

  /** A slot is released exactly when an accepted intent was refused before its claim, and only once. */
  lemma ReleasedExactlyOnce(w: World, id: string)
    requires Inv(w) && id in w.rows
    ensures var log := LogOf(w.events, id);
            && multiset(Core(log))[LogBudgetReleased] <= 1
            && (LogBudgetReleased in log <==> LogPrepared in log && FateOf(w, id).Cancelled?)
  {
    var log := LogOf(w.events, id);
    JournalGrammar(w, id);
    InvFine(w, id);
    LogFacts(w, id);
    CancelledFacts(w, id);
    CoreMembers(log, LogBudgetReleased);
    CoreMembers(log, LogPrepared);
    CoreMembers(log, LogDispatching);
    ReleaseShape(Core(log));
  }
}
