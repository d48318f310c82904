/** The store under a journal: every command it ever acknowledged, the ones that a receipt
    answered included, keeps its identities for good. */
module Aliases {
  import opened Wrappers
  import opened Protocol
  import Journal

  /** A command that was acknowledged, and the sequence of the record it was acknowledged with. */
  datatype Alias = Alias(command: AppendCommand, sequence: nat)

  datatype Store = Store(log: seq<AppendCommand>, aliases: seq<Alias>)

  function FindAlias(aliases: seq<Alias>, c: AppendCommand): (r: Option<nat>)
    ensures r.Some? ==> r.value < |aliases| && Journal.SameEnvelope(aliases[r.value].command, c)
    ensures r.None? ==> forall i :: 0 <= i < |aliases| ==> !Journal.SameEnvelope(aliases[i].command, c)
  {
    if aliases == [] then None
    else
      var n := |aliases| - 1;
      var earlier := FindAlias(aliases[..n], c);
      if earlier.Some? then earlier else if Journal.SameEnvelope(aliases[n].command, c) then Some(n) else None
  }

  /** One transaction: validate, look the identities up among all acknowledged commands, then the
      receipts, then plan and append. */
  function Commit(s: Store, c: AppendCommand): Result<(Store, Journal.CommitReceipt), Journal.CommitError> {
    match Validate(c)
    case Failure(error) => Failure(Journal.Policy(error))
    case Success(_) =>
      match FindAlias(s.aliases, c)
      case Some(i) =>
        var a := s.aliases[i];
        if a.command == c && 1 <= a.sequence <= |s.log|
        then Success((s, Journal.CommitReceipt(s.log[a.sequence - 1].eventId, a.sequence, true)))
        else Failure(Journal.Conflict)
      case None =>
        var key := Journal.ReceiptKeyOf(c);
        match if key.Some? then Journal.FindReceipt(s.log, c.runId, key.value) else None
        case Some(i) =>
          if s.log[i].payload == c.payload && s.log[i].detail == c.detail
          then Success((s.(aliases := s.aliases + [Alias(c, i + 1)]), Journal.CommitReceipt(s.log[i].eventId, i + 1, true)))
          else Failure(Journal.Conflict)
        case None =>
          match MakePlan(c, Journal.StateOf(s.log, c.runId))
          case Failure(error) => Failure(Journal.Policy(error))
          case Success(_) =>
            if |s.log| >= MAX_I64 then Failure(Journal.Policy(TooLarge))
            else Success((Store(s.log + [c], s.aliases + [Alias(c, |s.log| + 1)]),
                          Journal.CommitReceipt(c.eventId, |s.log| + 1, false)))
  }

  /** A refused command changes nothing. */
  function Next(s: Store, c: AppendCommand): Store {
    match Commit(s, c) case Success((s', _)) => s' case Failure(_) => s
  }

  function Run(s: Store, commands: seq<AppendCommand>): Store
    decreases |commands|
  {
    if commands == [] then s else Run(Next(s, commands[0]), commands[1..])
  }

  // ---- Invariant ----

  /** The alias is the record itself, or was answered by its receipt. */
  predicate AliasOk(log: seq<AppendCommand>, a: Alias) {
    && 1 <= a.sequence <= |log|
    && var record := log[a.sequence - 1];
    && Validate(a.command).Success?
    && (a.command == record
        || (Journal.SameReceipt(record, a.command) && record.payload == a.command.payload && record.detail == a.command.detail))
  }

  ghost predicate AllOk(s: Store) {
    forall i :: 0 <= i < |s.aliases| ==> AliasOk(s.log, s.aliases[i])
  }

  ghost predicate AllRecorded(s: Store) {
    forall i :: 0 <= i < |s.log| ==> Alias(s.log[i], i + 1) in s.aliases
  }

  ghost predicate AliasesDistinct(aliases: seq<Alias>) {
    forall i, j :: 0 <= i < j < |aliases| ==> !Journal.SameEnvelope(aliases[i].command, aliases[j].command)
  }

  ghost predicate Inv(s: Store) {
    Journal.Built(s.log) && AllOk(s) && AllRecorded(s) && AliasesDistinct(s.aliases)
  }

  lemma SameAlias(aliases: seq<Alias>, i: nat, j: nat, c: AppendCommand)
    requires AliasesDistinct(aliases) && i < |aliases| && j < |aliases|
    requires Journal.SameEnvelope(aliases[i].command, c) && aliases[j].command == c
    ensures i == j
  {
  }

  lemma RecordIsKnown(s: Store, i: nat, c: AppendCommand)
    requires AllRecorded(s) && i < |s.log| && Journal.SameEnvelope(s.log[i], c)
    ensures FindAlias(s.aliases, c).Some?
  {
    assert Alias(s.log[i], i + 1) in s.aliases;
  }

  /** A command that the aliases do not know is not in the journal under any identity. */
  lemma UnknownToJournal(s: Store, c: AppendCommand)
    requires AllRecorded(s) && FindAlias(s.aliases, c).None?
    ensures Journal.FindEnvelope(s.log, c).None?
  {
    var found := Journal.FindEnvelope(s.log, c);
    if found.Some? {
      RecordIsKnown(s, found.value, c);
    }
  }

  /** The journal answers a command it acknowledged as the aliases do. */
  lemma KnownToJournal(s: Store, i: nat)
    requires Inv(s) && i < |s.aliases|
    ensures var a := s.aliases[i];
      && 1 <= a.sequence <= |s.log| && Validate(a.command).Success?
      && Journal.Commit(s.log, a.command)
           == Success((s.log, Journal.CommitReceipt(s.log[a.sequence - 1].eventId, a.sequence, true)))
  {
    hide AllOk, AllRecorded, AliasesDistinct, AliasOk, Journal.Built, Validate, Journal.Commit, Journal.SameReceipt, Journal.SameEnvelope,
      Journal.ReceiptKeyOf;
    AliasAt(s, i);
    var a := s.aliases[i];
    if a.command == s.log[a.sequence - 1] {
      SameIsSameEnvelope(a.command);
      Journal.Deduplication(s.log, a.sequence - 1, a.command);
    } else {
      NotRecorded(s, i);
      ReceiptIsUnique(s.log, a.sequence - 1, a.command);
      ReceiptAnswers(s.log, a.sequence - 1, a.command);
    }
  }

  lemma SameIsSameEnvelope(c: AppendCommand)
    ensures Journal.SameEnvelope(c, c)
  {
  }

  lemma ReceiptAnswers(log: seq<AppendCommand>, i: nat, c: AppendCommand)
    requires i < |log| && Validate(c).Success? && Journal.FindEnvelope(log, c).None?
    requires Journal.SameReceipt(log[i], c) && Journal.FindReceipt(log, c.runId, Journal.ReceiptKeyOf(c).value) == Some(i)
    requires log[i].payload == c.payload && log[i].detail == c.detail
    ensures Journal.Commit(log, c) == Success((log, Journal.CommitReceipt(log[i].eventId, i + 1, true)))
  {
    hide Validate, Journal.FindEnvelope, Journal.FindReceipt, Journal.HasReceipt, Journal.SameEnvelope, MakePlan;
  }

  lemma NotRecorded(s: Store, i: nat)
    requires AllRecorded(s) && AliasesDistinct(s.aliases) && i < |s.aliases|
    requires 1 <= s.aliases[i].sequence <= |s.log| && s.aliases[i].command != s.log[s.aliases[i].sequence - 1]
    ensures Journal.FindEnvelope(s.log, s.aliases[i].command).None?
  {
    hide Journal.SameEnvelope, AliasesDistinct;
    var a := s.aliases[i];
    var found := Journal.FindEnvelope(s.log, a.command);
    if found.Some? {
      var j := AliasOfRecord(s, found.value);
      SameAlias(s.aliases, j, i, a.command);
    }
  }

  lemma AliasOfRecord(s: Store, i: nat) returns (j: nat)
    requires AllRecorded(s) && i < |s.log|
    ensures j < |s.aliases| && s.aliases[j] == Alias(s.log[i], i + 1)
  {
    assert Alias(s.log[i], i + 1) in s.aliases;
    j :| 0 <= j < |s.aliases| && s.aliases[j] == Alias(s.log[i], i + 1);
  }

  lemma ReceiptIsUnique(log: seq<AppendCommand>, i: nat, c: AppendCommand)
    requires Journal.Built(log) && i < |log| && Journal.SameReceipt(log[i], c)
    ensures Journal.FindReceipt(log, c.runId, Journal.ReceiptKeyOf(c).value) == Some(i)
  {
    var j := Journal.FindReceipt(log, c.runId, Journal.ReceiptKeyOf(c).value).value;
    if i != j {
      Journal.BuiltUnique(log, i, j);
    }
  }

  // ---- Main results ----

  /** Without its aliases the store is the journal: what it acknowledges, the journal acknowledges
      with the same effect and the same receipt. It refuses more only under an identity that an
      acknowledged command has. */
  lemma StoreRefinesJournal(s: Store, c: AppendCommand)
    requires Inv(s)
    ensures match Commit(s, c)
      case Success((s', receipt)) => Journal.Commit(s.log, c) == Success((s'.log, receipt))
      case Failure(error) =>
        || Journal.Commit(s.log, c) == Failure(error)
        || (error == Journal.Conflict && exists i :: 0 <= i < |s.aliases| && Journal.Takes(s.aliases[i].command, c))
  {
    hide Journal.Takes, AllOk, AllRecorded, AliasesDistinct, Journal.Built, Validate, MakePlan, Journal.StateOf, Journal.SameEnvelope,
      Journal.ReceiptKeyOf, Journal.Commit;
    InvalidIsRefused(s.log, c);
    var found := FindAlias(s.aliases, c);
    if found.Some? {
      if s.aliases[found.value].command == c {
        KnownToJournal(s, found.value);
      } else {
        Journal.TakesIsSameEnvelope(s.aliases[found.value].command, c);
      }
    } else {
      UnknownToJournal(s, c);
      RefinesUnknown(s, c);
    }
  }

  lemma InvalidIsRefused(log: seq<AppendCommand>, c: AppendCommand)
    ensures Validate(c).Failure? ==> Journal.Commit(log, c) == Failure(Journal.Policy(Validate(c).error))
  {
    hide Validate;
  }

  lemma RefinesUnknown(s: Store, c: AppendCommand)
    requires FindAlias(s.aliases, c).None? && Journal.FindEnvelope(s.log, c).None?
    ensures match Commit(s, c)
      case Success((s', receipt)) => Journal.Commit(s.log, c) == Success((s'.log, receipt))
      case Failure(error) => Journal.Commit(s.log, c) == Failure(error)
  {
    hide Inv, Validate, MakePlan, Journal.StateOf, Journal.ReceiptKeyOf, Journal.SameEnvelope, Journal.HasReceipt,
      FindAlias, Journal.FindEnvelope, Journal.FindReceipt;
  }

  lemma NextKeepsInv(s: Store, c: AppendCommand)
    requires Inv(s)
    ensures Inv(Next(s, c)) && s.aliases <= Next(s, c).aliases && s.log <= Next(s, c).log
  {
    hide AllOk, AllRecorded, AliasesDistinct, Validate, Journal.Built, MakePlan, Journal.StateOf, Journal.ReceiptKeyOf, AliasOk,
      Journal.Commit;
    StoreRefinesJournal(s, c);
    Journal.CommitKeepsBuilt(s.log, c);
    if Next(s, c) != s {
      NewAlias(s, c);
      AliasJoins(s, Next(s, c).log, Next(s, c).aliases[|s.aliases|]);
    }
  }

  /** A transaction that changes anything adds one alias, and the record when there was none. */
  lemma NewAlias(s: Store, c: AppendCommand)
    requires Next(s, c) != s
    ensures var s' := Next(s, c);
      && (s'.log == s.log || s'.log == s.log + [c])
      && |s'.aliases| == |s.aliases| + 1 && s'.aliases == s.aliases + [s'.aliases[|s.aliases|]]
      && var a := s'.aliases[|s.aliases|];
      && a.command == c && FindAlias(s.aliases, c).None? && AliasOk(s'.log, a)
      && (s'.log != s.log ==> a.sequence == |s'.log|)
  {
    hide Validate, MakePlan, Journal.StateOf;
  }

  lemma AliasJoins(s: Store, log': seq<AppendCommand>, a: Alias)
    requires AllOk(s) && AllRecorded(s) && AliasesDistinct(s.aliases)
    requires log' == s.log || (log' == s.log + [a.command] && a.sequence == |log'|)
    requires FindAlias(s.aliases, a.command).None? && AliasOk(log', a)
    ensures var s' := Store(log', s.aliases + [a]); AllOk(s') && AllRecorded(s') && AliasesDistinct(s'.aliases)
  {
    hide AllOk, AllRecorded, AliasesDistinct, AliasOk;
    AllOkJoins(s, log', a);
    AllRecordedJoins(s, log', a);
    DistinctJoins(s.aliases, a);
  }

  lemma AllOkJoins(s: Store, log': seq<AppendCommand>, a: Alias)
    requires AllOk(s) && s.log <= log' && AliasOk(log', a)
    ensures AllOk(Store(log', s.aliases + [a]))
  {
    hide Validate, Journal.SameReceipt;
    forall i | 0 <= i < |s.aliases + [a]| ensures AliasOk(log', (s.aliases + [a])[i]) {
      if i < |s.aliases| {
        assert AliasOk(s.log, s.aliases[i]);
      }
    }
  }

  lemma DistinctJoins(aliases: seq<Alias>, a: Alias)
    requires AliasesDistinct(aliases) && FindAlias(aliases, a.command).None?
    ensures AliasesDistinct(aliases + [a])
  {
    hide FindAlias;
    assert forall i :: 0 <= i < |aliases| ==> (aliases + [a])[i] == aliases[i];
  }

  lemma AllRecordedJoins(s: Store, log': seq<AppendCommand>, a: Alias)
    requires AllRecorded(s) && (log' == s.log || (log' == s.log + [a.command] && a.sequence == |log'|))
    ensures AllRecorded(Store(log', s.aliases + [a]))
  {
    var s' := Store(log', s.aliases + [a]);
    assert s'.aliases[|s.aliases|] == a;
    forall i | 0 <= i < |log'| ensures Alias(log'[i], i + 1) in s'.aliases {
      if i < |s.log| {
        assert Alias(s.log[i], i + 1) in s.aliases;
      }
    }
  }

  lemma {:induction false} RunKeepsInv(s: Store, commands: seq<AppendCommand>)
    requires Inv(s)
    ensures Inv(Run(s, commands)) && s.aliases <= Run(s, commands).aliases && s.log <= Run(s, commands).log
    decreases |commands|
  {
    hide Inv, Next;
    if commands != [] {
      NextKeepsInv(s, commands[0]);
      RunKeepsInv(Next(s, commands[0]), commands[1..]);
    }
  }

  /** Once a command is acknowledged, as a new record or by a receipt, it is acknowledged with the
      same sequence ever after and changes nothing, whatever was written since; and every other
      command under one of its identities is a conflict ever after. */
  lemma AcknowledgedForGood(s: Store, c: AppendCommand, commands: seq<AppendCommand>, d: AppendCommand)
    requires Inv(s) && Commit(s, c).Success?
    requires Journal.Takes(c, d) && Validate(d).Success?
    ensures var later := Run(Next(s, c), commands);
      Commit(later, d) == if d == c then Success((later, Commit(s, c).value.1.(duplicate := true))) else Failure(Journal.Conflict)
  {
    hide Inv, Validate, Next, Commit;
    Journal.TakesIsSameEnvelope(c, d);
    var i := Remembered(s, c);
    NextKeepsInv(s, c);
    RunKeepsInv(Next(s, c), commands);
    AliasAnswers(Run(Next(s, c), commands), i, d);
  }

  /** Whatever comes under the identities of an alias. */
  lemma AliasAnswers(s: Store, i: nat, d: AppendCommand)
    requires Inv(s) && i < |s.aliases| && Journal.SameEnvelope(s.aliases[i].command, d) && Validate(d).Success?
    ensures var a := s.aliases[i];
      && 1 <= a.sequence <= |s.log|
      && Commit(s, d)
           == if d == a.command then Success((s, Journal.CommitReceipt(s.log[a.sequence - 1].eventId, a.sequence, true)))
              else Failure(Journal.Conflict)
  {
    hide AllOk, AllRecorded, AliasesDistinct, AliasOk, Journal.Built, Validate, Journal.SameEnvelope, FindAlias, Commit;
    AliasFound(s.aliases, i, d);
    AliasAt(s, i);
    CommitKnown(s, d);
  }

  lemma CommitKnown(s: Store, d: AppendCommand)
    requires FindAlias(s.aliases, d).Some? && Validate(d).Success?
    ensures var a := s.aliases[FindAlias(s.aliases, d).value];
      Commit(s, d)
        == if a.command == d && 1 <= a.sequence <= |s.log|
           then Success((s, Journal.CommitReceipt(s.log[a.sequence - 1].eventId, a.sequence, true)))
           else Failure(Journal.Conflict)
  {
    hide Validate, MakePlan, Journal.StateOf, Journal.ReceiptKeyOf, Journal.SameEnvelope, FindAlias, Journal.FindReceipt, Journal.HasReceipt;
  }

  lemma AliasAt(s: Store, i: nat)
    requires AllOk(s) && i < |s.aliases|
    ensures var a := s.aliases[i];
      && 1 <= a.sequence <= |s.log| && Validate(a.command).Success?
      && var record := s.log[a.sequence - 1];
      && (a.command != record ==>
            && Journal.SameReceipt(record, a.command) && Journal.ReceiptKeyOf(a.command).Some?
            && record.payload == a.command.payload && record.detail == a.command.detail)
  {
    assert AliasOk(s.log, s.aliases[i]);
  }

  lemma AliasFound(aliases: seq<Alias>, i: nat, d: AppendCommand)
    requires AliasesDistinct(aliases) && i < |aliases| && Journal.SameEnvelope(aliases[i].command, d)
    ensures FindAlias(aliases, d).Some?
    ensures d == aliases[i].command ==> FindAlias(aliases, d) == Some(i)
    ensures d != aliases[i].command ==> aliases[FindAlias(aliases, d).value].command != d
  {
    var j := FindAlias(aliases, d).value;
    if aliases[j].command == d {
      SameAlias(aliases, i, j, d);
    } else if aliases[i].command == d {
      SameAlias(aliases, j, i, d);
    }
  }

  lemma Remembered(s: Store, c: AppendCommand) returns (i: nat)
    requires Inv(s) && Commit(s, c).Success?
    ensures var receipt := Commit(s, c).value.1;
      && i < |Next(s, c).aliases| && Next(s, c).aliases[i] == Alias(c, receipt.sequence)
      && 1 <= receipt.sequence <= |Next(s, c).log| && Next(s, c).log[receipt.sequence - 1].eventId == receipt.eventId
  {
    hide Validate, Journal.Built, AllRecorded, AllOk, AliasesDistinct, MakePlan, Journal.StateOf;
    var found := FindAlias(s.aliases, c);
    i := if found.Some? then found.value else |s.aliases|;
  }
}
