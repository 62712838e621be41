/**
 * Two flags of the server and who decides them: that a send is under way, one flag for all connections, and that a
 * connection's socket is open.
 */
module TcpServerFlags {
  import opened Common
  import opened History
  import opened TcpServerThreads

  lemma ExecutionStep(labels: seq<Label>, k: nat)
    requires k < |labels|
    ensures Execution(labels[..k + 1]) == Step(Execution(labels[..k]), labels[k])
  {
    assert labels[..k + 1][..k] == labels[..k];
  }

  // ---------------------------------------------------------------- the send flag

  /** What step `i` of an execution writes into the flag. */
  ghost function SendingWrite(labels: seq<Label>, i: nat): Option<bool> {
    if i < |labels| && Execution(labels[..i]).Some? then Sets(Execution(labels[..i]).value, labels[i]) else None
  }

  function Sets(s: Server, l: Label): Option<bool> {
    if l.Run? && l.t < |s.threads| && s.threads[l.t] != [] && s.threads[l.t][0].SetSending?
    then Some(s.threads[l.t][0].sending)
    else None
  }

  ghost function SendingWrites(labels: seq<Label>): nat -> Option<bool> {
    (i: nat) => SendingWrite(labels, i)
  }

  lemma StepSetsSending(s: Server, l: Label)
    requires Enabled(s, l)
    ensures After(s, l).shared.sending == if Sets(s, l).Some? then Sets(s, l).value else s.shared.sending
  {
  }

  /** After every execution the flag is what the last send or the last completed send has set. */
  lemma {:induction false} SendingIsLastWritten(labels: seq<Label>, k: nat)
    requires k <= |labels| && Execution(labels[..k]).Some?
    ensures LastWritten(SendingWrites(labels), k, false, Execution(labels[..k]).value.shared.sending)
  {
    if k == 0 {
    } else {
      var s := Execution(labels[..k - 1]);
      ExecutionStep(labels, k - 1);
      SendingIsLastWritten(labels, k - 1);
      StepSetsSending(s.value, labels[k - 1]);
      LastWrittenStep(SendingWrites(labels), k - 1, false, Execution(labels[..k]).value.shared.sending);
    }
  }

  // ---------------------------------------------------------------- open sockets

  /** A successful accept opens the socket of its connection, and a step that closes it closes it. */
  function Opens(s: Server, l: Label, c: nat): Option<bool> {
    if l.AcceptDone? && l.c == c && l.error == NoError then Some(true)
    else if l.Run? && l.t < |s.threads| && s.threads[l.t] != [] && s.threads[l.t][0] == Close(c) then Some(false)
    else None
  }

  ghost function OpenWrite(labels: seq<Label>, c: nat, i: nat): Option<bool> {
    if i < |labels| && Execution(labels[..i]).Some? then Opens(Execution(labels[..i]).value, labels[i], c) else None
  }

  ghost function OpenWrites(labels: seq<Label>, c: nat): nat -> Option<bool> {
    (i: nat) => OpenWrite(labels, c, i)
  }

  lemma StepOpens(s: Server, l: Label, c: nat)
    requires Enabled(s, l)
    ensures ConnAt(After(s, l).shared, c).open
         == if Opens(s, l, c).Some? then Opens(s, l, c).value else ConnAt(s.shared, c).open
  {
    if l.Run? {
      RunOpens(s.shared, s.threads[l.t][0], l.key, l.allocationFails, c);
    }
  }

  lemma RunOpens(d: Shared, i: Instr, key: nat, allocationFails: bool, c: nat)
    ensures ConnAt(SharedAfter(d, i, key, allocationFails), c).open == (ConnAt(d, c).open && i != Close(c))
  {
  }

  /** After every execution a connection's socket is open exactly if it was accepted and not closed since. */
  lemma {:induction false} SocketIsLastWritten(labels: seq<Label>, c: nat, k: nat)
    requires k <= |labels| && Execution(labels[..k]).Some?
    ensures LastWritten(OpenWrites(labels, c), k, false, ConnAt(Execution(labels[..k]).value.shared, c).open)
  {
    if k == 0 {
    } else {
      var s := Execution(labels[..k - 1]);
      ExecutionStep(labels, k - 1);
      SocketIsLastWritten(labels, c, k - 1);
      StepOpens(s.value, labels[k - 1], c);
      LastWrittenStep(OpenWrites(labels, c), k - 1, false, ConnAt(Execution(labels[..k]).value.shared, c).open);
    }
  }
}
