/** flushUsage of services/daemon/internal/panelclient/usage.go: the bounded loop that
    reports the head of the outbox until the outbox is empty or a call fails. */
module Sender {
  import opened Wrappers
  import opened UsageTypes
  import opened Collections
  import opened Pipeline
  import O = Outbox
  import L = Ledger
  import P = LedgerProofs

  const MAX_CALLS := 128

  /** What becomes of one call: the request is lost, its credentials are rejected before it
      reaches the ledger, the reply is lost, or none of these. */
  datatype Fate = Lost | Rejected | Unanswered | Answered

  datatype Call = Call(fate: Fate, setting: L.Setting)

  datatype Issue = Clear | Pending | Unauthenticated | RecoveryRequired | Unacknowledged | Backlog

  /** The clocks of the calls never run backwards. */
  ghost predicate InOrder(clock: int, calls: seq<Call>) {
    && (forall i :: 0 <= i < |calls| ==> clock <= calls[i].setting.now)
    && (forall i, j :: 0 <= i < j < |calls| ==> calls[i].setting.now <= calls[j].setting.now)
  }

  /** There is an outstanding call, and the panel would welcome it. */
  ghost predicate Ready(site: Site, s: System, setting: L.Setting) {
    && s.call.Some? && s.call.value in s.store.rows
    && Welcoming(site, s.panel, Message(s.call.value, s.store.rows[s.call.value].batch), setting)
  }

  /** Every answered call the panel is ready for acknowledges one batch: a backlog is reported
      after all calls went through, a pending report only when the next call was lost or came
      unready, and the loop is left with an error exactly on rejected credentials. */
  ghost predicate Progress(site: Site, s: System, t: System, calls: seq<Call>, issue: Issue) {
    var n := t.store.committedSeq - s.store.committedSeq;
    && 0 <= n <= |calls|
    && (issue == Backlog ==> n == |calls|)
    && (issue == Unauthenticated ==> n < |calls| && calls[n].fate == Rejected)
    && (issue == Pending ==>
          n < |calls| && calls[n].fate != Rejected && (calls[n].fate == Answered ==> !Ready(site, t, calls[n].setting)))
  }

  /** The sender refines the protocol: whatever the network does, the stores end in a state
      the protocol's invariant allows, with the same recorded counters. It never asks for
      recovery nor fails to acknowledge, and when it reports no issue, everything recorded
      is in the panel's month ledger. `s` and `t` are the protocol states before and after. */
  method FlushUsage(site: Site, store: O.UsageStore, ledger: L.UsageLedger, calls: seq<Call>, ghost s: System)
    returns (issue: Issue, ghost t: System)
    requires |calls| == MAX_CALLS
    requires s.store == store.View() && s.panel == ledger.View()
    modifies store, ledger
    ensures t.store == store.View() && t.panel == ledger.View() && t.recorded == s.recorded
    ensures store.cursors == old(store.cursors)
    ensures Inv(site, s) && InOrder(s.clock, calls) ==>
      Inv(site, t) && issue != RecoveryRequired && issue != Unacknowledged
    ensures issue == Clear ==> store.rows == map[]
    ensures Inv(site, s) && InOrder(s.clock, calls) ==> Progress(site, s, t, calls, issue)
    ensures Inv(site, s) && InOrder(s.clock, calls) && issue == Clear ==>
      forall user, dir :: P.MonthTotal(ledger.buckets, user, site.machine, dir) == RecordedBytes(s.recorded, user, dir)
  {
    hide Inv;
    hide Ready;
    ghost var sound := Inv(site, s) && InOrder(s.clock, calls);
    t := s;
    if store.recoveryIssue != "" {
      if sound { NoIssueStored(site, t); }
      return RecoveryRequired, t;
    }
    for i := 0 to MAX_CALLS
      invariant t.store == store.View() && t.panel == ledger.View() && t.recorded == s.recorded
      invariant store.cursors == old(store.cursors)
      invariant store.recoveryIssue == ""
      invariant sound ==> t.store.committedSeq == s.store.committedSeq + i
      invariant sound ==> Inv(site, t) && forall j :: i <= j < MAX_CALLS ==> t.clock <= calls[j].setting.now
    {
      var head := store.NextBatch();
      if head.None? {
        if sound { AllSettled(site, t); }
        return Clear, t;
      }
      issue, t := ReportHead(site, store, ledger, calls[i], head.value.0, head.value.1, t);
      if issue != Clear { return; }
    }
    issue := Backlog;
  }

  /** One call for the head of the outbox; Clear means that it was acknowledged. */
  method ReportHead(site: Site, store: O.UsageStore, ledger: L.UsageLedger, call: Call, sequence: int, row: O.Row,
                    ghost s: System)
    returns (issue: Issue, ghost t: System)
    requires s.store == store.View() && s.panel == ledger.View() && store.recoveryIssue == ""
    requires Head(s.store, sequence) && s.store.rows[sequence] == row
    modifies store, ledger
    ensures t.store == store.View() && t.panel == ledger.View() && t.recorded == s.recorded
    ensures store.cursors == old(store.cursors)
    ensures issue == RecoveryRequired ==> store.recoveryIssue != ""
    ensures issue != Backlog && (issue == Clear ==> store.recoveryIssue == "")
    ensures issue == Pending || issue == Unauthenticated ==> store.View() == old(store.View())
    ensures issue == Unauthenticated <==> call.fate == Rejected
    ensures Inv(site, s) && s.clock <= call.setting.now ==>
      && Inv(site, t) && t.clock <= call.setting.now && issue in {Clear, Pending, Unauthenticated}
      && t.store.committedSeq == s.store.committedSeq + (if issue == Clear then 1 else 0)
      && (issue == Pending && call.fate == Answered ==> !Ready(site, t, call.setting))
  {
    hide Inv;
    hide Ready;
    hide L.Reported;
    ghost var sound := Inv(site, s) && s.clock <= call.setting.now;
    ghost var called := Called(s, sequence);
    if sound { CallStep(site, s, sequence); }
    t := called;
    if call.fate == Rejected { return Unauthenticated, t; }
    if call.fate == Lost { return Pending, t; }
    var message := Message(sequence, row.batch);
    var reply := ledger.ReportUsage(site.machine, RequestOf(site, message), call.setting);
    t := Delivered(site, called, message, call.setting);
    if sound { DeliverStep(site, called, message, call.setting); }
    if reply.Err? {
      RefusalIdle(site, called, message, call.setting);
      if sound { Unready(site, called, call.setting); }
    }
    if call.fate == Unanswered || reply.Err? { return Pending, t; }
    issue, t := Receive(site, store, ledger, sequence, reply.value.committed, t);
  }

  /** The reply to the outstanding call. */
  method Receive(site: Site, store: O.UsageStore, ledger: L.UsageLedger, sequence: int, committed: int, ghost s: System)
    returns (issue: Issue, ghost t: System)
    requires s.store == store.View() && s.panel == ledger.View() && store.recoveryIssue == ""
    requires s.call == Some(sequence) && Response(sequence, committed) in s.responses
    modifies store
    ensures t == s.(store := store.View(), call := None) && store.cursors == old(store.cursors)
    ensures issue in {Clear, RecoveryRequired, Unacknowledged}
    ensures issue == RecoveryRequired ==> store.recoveryIssue != ""
    ensures issue == Clear ==> store.recoveryIssue == ""
    ensures Inv(site, s) ==> Inv(site, t) && issue == Clear && t.store.committedSeq == s.store.committedSeq + 1
  {
    hide Inv;
    hide Sum;
    ghost var sound := Inv(site, s);
    if sound { AnswerStep(site, s, Response(sequence, committed)); }
    if committed < sequence {
      store.RequireUsageRecovery("usage stream requires recovery");
      return RecoveryRequired, s.(store := store.View(), call := None);
    }
    var acknowledged := store.AcknowledgeUsage(committed);
    t := s.(store := store.View(), call := None);
    issue := if acknowledged.Err? then Unacknowledged else Clear;
  }

  // ---------------------------------------------------------------- the steps it takes

  ghost function Delivered(site: Site, s: System, m: Message, setting: L.Setting): System {
    var (panel, reply) := L.Reported(s.panel, site.machine, RequestOf(site, m), setting);
    s.(panel := panel, clock := setting.now,
       responses := if reply.Ok? then s.responses + {Response(m.sequence, reply.value.committed)} else s.responses)
  }

  lemma NoIssueStored(site: Site, s: System)
    requires Inv(site, s)
    ensures s.store.recoveryIssue == ""
  {}

  lemma CallStep(site: Site, s: System, head: int)
    requires Inv(site, s) && Head(s.store, head)
    ensures Inv(site, Called(s, head))
  {
    hide Inv;
    NoIssueStored(site, s);
    assert Step(site, s, Event.Call, Called(s, head));
    StepInv(site, s, Event.Call, Called(s, head));
  }

  /** A refused call came unready. */
  lemma Unready(site: Site, s: System, setting: L.Setting)
    requires Inv(site, s) && s.call.Some? && s.call.value in s.store.rows
    requires var m := Message(s.call.value, s.store.rows[s.call.value].batch);
             m in s.requests && L.Reported(s.panel, site.machine, RequestOf(site, m), setting).1.Err?
    ensures !Ready(site, s.(clock := setting.now), setting)
  {
    hide L.Reported;
    hide P.Coherent;
    hide Charged;
    hide Booked;
    hide Welcoming;
    RequestAdmitted(site, s, Message(s.call.value, s.store.rows[s.call.value].batch), setting);
  }

  lemma DeliverStep(site: Site, s: System, m: Message, setting: L.Setting)
    requires Inv(site, s) && m in s.requests && s.clock <= setting.now
    ensures Inv(site, Delivered(site, s, m, setting))
  {
    hide Inv;
    hide L.Reported;
    StepInv(site, s, Deliver(m, setting), Delivered(site, s, m, setting));
  }

  lemma RefusalIdle(site: Site, s: System, m: Message, setting: L.Setting)
    requires L.Reported(s.panel, site.machine, RequestOf(site, m), setting).1.Err?
    ensures L.Reported(s.panel, site.machine, RequestOf(site, m), setting).0 == s.panel
    ensures Delivered(site, s, m, setting) == s.(clock := setting.now)
  {
    hide L.PostDeltas;
  }

  lemma AnswerStep(site: Site, s: System, response: Response)
    requires Inv(site, s) && response in s.responses && s.call == Some(response.sequence)
    ensures response.committed >= response.sequence
    ensures var r := O.Acknowledged(s.store, response.committed);
            r.Ok? && r.value.committedSeq == s.store.committedSeq + 1 && Inv(site, s.(call := None, store := r.value))
  {
    AnswerOutcome(site, s, response);
    var r := O.Acknowledged(s.store, response.committed);
    StepInv(site, s, Answer(response), s.(call := None, store := r.value));
  }

  /** An empty outbox means the panel's month ledger holds everything recorded. */
  lemma AllSettled(site: Site, s: System)
    requires Inv(site, s) && s.store.rows == map[]
    ensures forall user, dir ::
      P.MonthTotal(s.panel.buckets, user, site.machine, dir) == RecordedBytes(s.recorded, user, dir)
  {
    hide P.Coherent;
    hide P.MonthTotal;
    hide IssuedBytes;
    hide RecordedBytes;
    assert s.store.committedSeq + 1 !in s.store.rows;
    forall user, dir
      ensures P.MonthTotal(s.panel.buckets, user, site.machine, dir) == RecordedBytes(s.recorded, user, dir)
    {
      Balanced(site, s, user, dir);
    }
  }
}
