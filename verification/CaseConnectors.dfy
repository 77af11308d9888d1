/** Connectors over whole runs: what overlapping edits can and cannot break. */
module CaseConnectors {
  import opened Common
  import opened Settings
  import opened Connectors
  import opened CaseTables
  import opened CaseRuns

  /** Stored rows are in shape, and every edit under way was checked against a row of the same type. */
  ghost predicate ConnectorInv(s: State) {
    && (forall id :: id in s.db.connectors ==> Shaped(s.db.connectors[id]))
    && (forall e :: e in s.edits ==>
          var edit := s.edits[e];
          && ChangeOk(edit.read, edit.change)
          && edit.connector in s.db.connectors && edit.read.typ == s.db.connectors[edit.connector].typ)
  }

  lemma WriteKeepsShape(s: State, e: EditId)
    requires ConnectorInv(s)
    ensures ConnectorInv(AfterWriteConnector(s, e))
  {
    hide Shaped, ChangeOk;
    if e in s.edits {
      var edit := s.edits[e];
      MergeKeepsShape(edit.read, s.db.connectors[edit.connector], edit.change);
    }
  }

  lemma CreateKeepsShape(s: State, id: ConnectorId, row: Connector)
    requires ConnectorInv(s)
    ensures ConnectorInv(AfterConnector(s, id, row))
  {
    hide Shaped, ChangeOk;
  }

  lemma ReadKeepsShape(s: State, e: EditId, id: ConnectorId, change: Change)
    requires ConnectorInv(s)
    ensures ConnectorInv(AfterReadConnector(s, e, id, change))
  {
    hide Shaped, ChangeOk;
  }

  lemma SameConnectorsKeepShape(s: State, t: State)
    requires ConnectorInv(s) && t.db.connectors == s.db.connectors && t.edits == s.edits
    ensures ConnectorInv(t)
  {
    hide Shaped, ChangeOk;
  }

  lemma StepKeepsShape(s: State, step: Step)
    requires ConnectorInv(s)
    ensures ConnectorInv(Next(s, step))
  {
    hide ConnectorInv, AfterWriteConnector, AfterConnector, AfterReadConnector, Prepare, Execute;
    match step {
      case WriteConnector(e) => WriteKeepsShape(s, e);
      case CreateConnector(id, row) => CreateKeepsShape(s, id, row);
      case ReadConnector(e, id, change) => ReadKeepsShape(s, e, id, change);
      case _ =>
        hide Surround;
        SameConnectorsKeepShape(s, Next(s, step));
    }
  }

  lemma {:induction false} RunKeepsShape(steps: seq<Step>)
    ensures ConnectorInv(Run(EMPTY, steps))
  {
    hide Next, Shaped, ChangeOk;
    if steps != [] {
      RunKeepsShape(steps[..|steps| - 1]);
      StepKeepsShape(Run(EMPTY, steps[..|steps| - 1]), steps[|steps| - 1]);
    }
  }

  /** The row as it was created. */
  ghost function Created(steps: seq<Step>, id: ConnectorId): Connector
    requires id in Run(EMPTY, steps).db.connectors
  {
    if steps != [] && id in Run(EMPTY, steps[..|steps| - 1]).db.connectors then Created(steps[..|steps| - 1], id)
    else Run(EMPTY, steps).db.connectors[id]
  }

  /** The step writes a change to this row. */
  ghost predicate WritesTo(s: State, step: Step, id: ConnectorId) {
    step.WriteConnector? && step.edit in s.edits && s.edits[step.edit].connector == id && id in s.db.connectors
  }

  /** The changes that were written to a row, in order. */
  ghost function Written(steps: seq<Step>, id: ConnectorId): seq<Change> {
    if steps == [] then []
    else
      var prior, last := steps[..|steps| - 1], steps[|steps| - 1];
      var s := Run(EMPTY, prior);
      Written(prior, id) + if WritesTo(s, last, id) then [s.edits[last.edit].change] else []
  }

  lemma RowMoves(s: State, step: Step, id: ConnectorId)
    requires id in s.db.connectors
    ensures id in Next(s, step).db.connectors
    ensures Next(s, step).db.connectors[id] ==
            if WritesTo(s, step, id) then Merge(s.db.connectors[id], s.edits[step.edit].change) else s.db.connectors[id]
  {
    hide Prepare, Execute, Merge;
  }

  lemma {:induction false} NothingWritten(steps: seq<Step>, id: ConnectorId)
    requires id !in Run(EMPTY, steps).db.connectors
    ensures Written(steps, id) == []
  {
    hide Next;
    if steps != [] {
      var prior, last := steps[..|steps| - 1], steps[|steps| - 1];
      if id in Run(EMPTY, prior).db.connectors { RowMoves(Run(EMPTY, prior), last, id); }
      NothingWritten(prior, id);
    }
  }

  lemma MergeMore(c: Connector, changes: seq<Change>, change: Change)
    ensures MergeAll(c, changes + [change]) == Merge(MergeAll(c, changes), change)
  {
    hide Merge;
    assert (changes + [change])[..|changes|] == changes;
  }

  /** A stored row is the created one with all written changes merged into it. */
  lemma {:induction false} RowIsMerged(steps: seq<Step>, id: ConnectorId)
    requires id in Run(EMPTY, steps).db.connectors
    ensures Run(EMPTY, steps).db.connectors[id] == MergeAll(Created(steps, id), Written(steps, id))
  {
    hide Next, Merge;
    if steps != [] {
      var prior, last := steps[..|steps| - 1], steps[|steps| - 1];
      var s := Run(EMPTY, prior);
      if id in s.db.connectors {
        RowIsMerged(prior, id);
        RowMoves(s, last, id);
        if WritesTo(s, last, id) {
          MergeMore(Created(prior, id), Written(prior, id), s.edits[last.edit].change);
        } else {
          assert Written(prior, id) + [] == Written(prior, id);
        }
      } else {
        NothingWritten(prior, id);
        NewRowIsUnwritten(s, last, id);
      }
    }
  }

  lemma NewRowIsUnwritten(s: State, step: Step, id: ConnectorId)
    requires id !in s.db.connectors
    ensures !WritesTo(s, step, id)
  {
  }

  /**
   However edits overlap, in every run a stored connector is valid exactly when the permission, the capabilities and
   the configuration that were written last go together: types, capability lists, the right to write and search
   settings cannot be broken.
   */
  lemma OnlyWriteSettingsCanBreak(steps: seq<Step>, id: ConnectorId)
    requires id in Run(EMPTY, steps).db.connectors
    ensures var c := Run(EMPTY, steps).db.connectors[id];
            Shaped(c) && (ConnectorOk(c) <==> LastWritesFit(Created(steps, id), Written(steps, id)))
  {
    RunKeepsShape(steps);
    RowIsMerged(steps, id);
    MergeIsLastWrites(Created(steps, id), Written(steps, id));
    hide Shaped, LdapWriteConfigurationOk, Run, Created, Written, MergeAll;
  }

  // ----- Serialised edits -----

  /** Every write of the run finds the row as its check read it. */
  ghost predicate Serialised(steps: seq<Step>) {
    steps == [] ||
    (var prior, last := steps[..|steps| - 1], steps[|steps| - 1];
     var s := Run(EMPTY, prior);
     && Serialised(prior)
     && (last.WriteConnector? && last.edit in s.edits && s.edits[last.edit].connector in s.db.connectors ==>
           s.db.connectors[s.edits[last.edit].connector] == s.edits[last.edit].read))
  }

  lemma SerialWriteKeepsValid(s: State, e: EditId)
    requires ConnectorInv(s) && forall id :: id in s.db.connectors ==> ConnectorOk(s.db.connectors[id])
    requires e in s.edits && s.edits[e].connector in s.db.connectors ==>
               s.db.connectors[s.edits[e].connector] == s.edits[e].read
    ensures forall id :: id in AfterWriteConnector(s, e).db.connectors ==>
            ConnectorOk(AfterWriteConnector(s, e).db.connectors[id])
  {
    if e in s.edits {
      SerialMerge(s.edits[e].read, s.edits[e].change);
    }
    hide ConnectorOk, ChangeOk;
  }

  lemma SerialMerge(c: Connector, change: Change)
    requires ChangeOk(c, change)
    ensures ConnectorOk(c) ==> ConnectorOk(Merge(c, change))
  {
  }

  /** With serialised edits every connector of every run is valid. */
  lemma {:induction false} SerialisedEditsKeepConnectors(steps: seq<Step>)
    requires Serialised(steps)
    ensures forall id :: id in Run(EMPTY, steps).db.connectors ==> ConnectorOk(Run(EMPTY, steps).db.connectors[id])
  {
    hide ConnectorOk, Prepare, Execute, AfterWriteConnector;
    if steps != [] {
      var prior, last := steps[..|steps| - 1], steps[|steps| - 1];
      SerialisedEditsKeepConnectors(prior);
      RunKeepsShape(prior);
      if last.WriteConnector? {
        SerialWriteKeepsValid(Run(EMPTY, prior), last.edit);
      }
    }
  }

  /** So the plan of an LDAP disable finds a strategy that the executor knows, as far as validation reads it. */
  lemma PlannedDisableHasStrategy(steps: seq<Step>, c: CaseId, k: ActionKey)
    requires Serialised(steps) && PlanCase(Run(EMPTY, steps).db, c).Ok?
    requires k in PlannedKeys(Run(EMPTY, steps).db, c, Run(EMPTY, steps).db.cases[c].person) && k.typ == DisableAccount
    ensures var db := Run(EMPTY, steps).db;
            && k.account in db.accounts && db.accounts[k.account].connector in db.connectors
            && var connector := db.connectors[db.accounts[k.account].connector];
               && connector.writeEnabled && DisableAccountCapability in connector.capabilities
               && (connector.typ == Ldap ==> SupportedStrategy(StringConfig(connector.configuration, DisableStrategy)))
  {
    hide Run, PlannedAction, ConnectorOk, SupportedStrategy, StringConfig, PlanCase;
    SerialisedEditsKeepConnectors(steps);
    var db := Run(EMPTY, steps).db;
    var connector := db.connectors[db.accounts[k.account].connector];
    var disabled := db.accounts[k.account].status == Disabled;
    PlannedWriteHasABranch(disabled, connector);
    if connector.typ == Ldap {
      PlannerAndExecutorAgree(disabled, connector);
    }
  }
}
