/** The packet-status protocol (protocol.go:23-37, 162-198): what the two check
    functions accept, as a grammar over whole messages. */
module Statuses {
  import opened Packets

  predicate IsClientStatusCompleted(status: byte) {
    status == STATUS_C1 || status == STATUS_C3
  }

  predicate IsClientStatusUncompleted(status: byte) {
    status == STATUS_C0 || status == STATUS_C2
  }

  predicate IsServerStatusCompleted(status: byte) {
    status == STATUS_S5 || status == STATUS_S7
  }

  predicate IsServerStatusUncompleted(status: byte) {
    status == STATUS_S4 || status == STATUS_S6
  }

  datatype Verdict = Accepted | OutOfOrder(prev: byte, current: byte) | UnknownStatus(current: byte)

  function CheckClientPacketStatus(prev: byte, current: byte): Verdict {
    if current == STATUS_C0 || current == STATUS_C1 then
      if prev != STATUS_NONE && !IsClientStatusCompleted(prev) then OutOfOrder(prev, current) else Accepted
    else if current == STATUS_C2 || current == STATUS_C3 then
      if !IsClientStatusUncompleted(prev) then OutOfOrder(prev, current) else Accepted
    else if current == STATUS_CLOSE then Accepted
    else UnknownStatus(current)
  }

  function CheckServerPacketStatus(prev: byte, current: byte): Verdict {
    if current == STATUS_S4 || current == STATUS_S5 then
      if prev != STATUS_NONE && !IsServerStatusCompleted(prev) then OutOfOrder(prev, current) else Accepted
    else if current == STATUS_S6 || current == STATUS_S7 then
      if !IsServerStatusUncompleted(prev) then OutOfOrder(prev, current) else Accepted
    else if current == STATUS_CLOSE then Accepted
    else UnknownStatus(current)
  }

  /** The check the peer of a sender with the given role applies. */
  /** A refusal names the statuses it is about, and a status that the role does not have, nor any, is
      unknown. */
  function Check(role: Role, prev: byte, current: byte): (v: Verdict)
    ensures v.OutOfOrder? ==> v.prev == prev && v.current == current
    ensures v.UnknownStatus? ==> v.current == current
    ensures v.UnknownStatus? <==> current != 8 && !(if role.Client? then current < 4 else 4 <= current < 8)
  {
    if role.Client? then CheckClientPacketStatus(prev, current) else CheckServerPacketStatus(prev, current)
  }

  predicate Completed(role: Role, status: byte) {
    if role.Client? then IsClientStatusCompleted(status) else IsServerStatusCompleted(status)
  }

  /** A whole sequence of statuses, checked one by one from prev. */
  predicate Accepts(role: Role, prev: byte, s: seq<byte>)
    decreases |s|
  {
    s == [] || (Check(role, prev, s[0]).Accepted? && Accepts(role, s[0], s[1..]))
  }

  function StatusOf(role: Role, first: bool, last: bool): (s: byte)
    ensures s == (if role.Client? then 0 else 4) + (if first then 0 else 2) + (if last then 1 else 0)
  {
    match role
    case Client => if last then (if first then STATUS_C1 else STATUS_C3) else (if first then STATUS_C0 else STATUS_C2)
    case Server => if last then (if first then STATUS_S5 else STATUS_S7) else (if first then STATUS_S4 else STATUS_S6)
  }

  /** C1 | C0 C2* C3 (or S5 | S4 S6* S7): the statuses of one message. */
  predicate IsMessage(role: Role, s: seq<byte>) {
    |s| > 0 && forall i :: 0 <= i < |s| ==> s[i] == StatusOf(role, i == 0, i == |s| - 1)
  }

  function Flatten(ss: seq<seq<byte>>): seq<byte> {
    if ss == [] then [] else ss[0] + Flatten(ss[1..])
  }

  ghost predicate AllMessages(role: Role, ms: seq<seq<byte>>) {
    forall i :: 0 <= i < |ms| ==> IsMessage(role, ms[i])
  }

  /** s is a prefix of a sequence of whole messages. */
  ghost predicate InGrammar(role: Role, s: seq<byte>) {
    exists ms :: AllMessages(role, ms) && s <= Flatten(ms)
  }

  lemma {:induction false} AcceptsAppend(role: Role, prev: byte, a: seq<byte>, b: seq<byte>)
    ensures Accepts(role, prev, a + b)
        <==> Accepts(role, prev, a) && Accepts(role, if a == [] then prev else a[|a| - 1], b)
    decreases |a|
  {
    if a == [] {
      assert a + b == b;
    } else {
      assert (a + b)[1..] == a[1..] + b;
      AcceptsAppend(role, a[0], a[1..], b);
    }
  }

  /** A prefix of length n of one message is accepted in sequence, from position k on. */
  lemma {:induction false} MessageAccepted(role: Role, prev: byte, m: seq<byte>, k: nat, n: nat)
    requires IsMessage(role, m) && k <= n <= |m|
    requires if k == 0 then prev == STATUS_NONE || Completed(role, prev) else prev == m[k - 1]
    ensures Accepts(role, prev, m[k..n])
    decreases n - k
  {
    if k < n {
      assert m[k..n][1..] == m[k + 1..n];
      MessageAccepted(role, m[k], m, k + 1, n);
    }
  }

  lemma {:induction false} GrammarAccepted(role: Role, prev: byte, s: seq<byte>, ms: seq<seq<byte>>)
    requires AllMessages(role, ms) && s <= Flatten(ms)
    requires prev == STATUS_NONE || Completed(role, prev)
    ensures Accepts(role, prev, s)
    decreases |ms|
  {
    if ms != [] {
      var m := ms[0];
      if |s| <= |m| {
        assert s == m[0..|s|];
        MessageAccepted(role, prev, m, 0, |s|);
      } else {
        assert s == m + s[|m|..];
        assert Flatten(ms) == m + Flatten(ms[1..]);
        assert s[|m|..] <= Flatten(ms[1..]);
        assert m == m[0..|m|];
        MessageAccepted(role, prev, m, 0, |m|);
        GrammarAccepted(role, m[|m| - 1], s[|m|..], ms[1..]);
        AcceptsAppend(role, prev, m, s[|m|..]);
      }
    }
  }

  lemma {:induction false} FlattenSnoc(a: seq<seq<byte>>, m: seq<byte>)
    ensures Flatten(a + [m]) == Flatten(a) + m
    decreases |a|
  {
    if a != [] {
      assert (a + [m])[1..] == a[1..] + [m];
      FlattenSnoc(a[1..], m);
    }
  }

  /** The statuses of an unfinished message: first, then middles. */
  predicate IsOpen(role: Role, s: seq<byte>) {
    forall i :: 0 <= i < |s| ==> s[i] == StatusOf(role, i == 0, false)
  }

  /** Whatever is accepted after whole messages and an unfinished one stays in the grammar. */
  lemma {:induction false} AcceptedInGrammar(role: Role, done: seq<seq<byte>>, open: seq<byte>, prev: byte, s: seq<byte>)
    returns (ms: seq<seq<byte>>)
    requires AllMessages(role, done) && IsOpen(role, open)
    requires if open == [] then prev == STATUS_NONE || Completed(role, prev) else prev == open[|open| - 1]
    requires Accepts(role, prev, s) && STATUS_CLOSE !in s
    ensures AllMessages(role, ms) && Flatten(done) + open + s <= Flatten(ms)
    decreases |s|
  {
    if s == [] {
      if open == [] {
        ms := done;
      } else {
        var m := open + [StatusOf(role, false, true)];
        ms := done + [m];
        FlattenSnoc(done, m);
      }
    } else {
      var open' := open + [s[0]];
      assert Flatten(done) + open' + s[1..] == Flatten(done) + open + s;
      if Completed(role, s[0]) {
        FlattenSnoc(done, open');
        ms := AcceptedInGrammar(role, done + [open'], [], s[0], s[1..]);
        assert Flatten(done + [open']) + [] == Flatten(done) + open';
      } else {
        ms := AcceptedInGrammar(role, done, open', s[0], s[1..]);
      }
    }
  }

  /** After a close status only further close statuses are accepted. */
  lemma {:induction false} OnlyCloseAfterClose(role: Role, s: seq<byte>)
    ensures Accepts(role, STATUS_CLOSE, s) <==> forall i :: 0 <= i < |s| ==> s[i] == STATUS_CLOSE
  {
    if s != [] {
      OnlyCloseAfterClose(role, s[1..]);
      if s[0] == STATUS_CLOSE && Accepts(role, STATUS_CLOSE, s[1..]) {
        assert forall i :: 0 < i < |s| ==> s[i] == s[1..][i - 1];
      }
    }
  }

  function FirstClose(s: seq<byte>): (k: nat)
    ensures k <= |s| && STATUS_CLOSE !in s[..k]
    ensures k < |s| ==> s[k] == STATUS_CLOSE
  {
    if s == [] || s[0] == STATUS_CLOSE then 0 else 1 + FirstClose(s[1..])
  }

  /** From place k on there are only close statuses. */
  predicate ClosedFrom(s: seq<byte>, k: nat) {
    forall i :: k <= i < |s| ==> s[i] == STATUS_CLOSE
  }

  lemma ClosedTail(role: Role, s: seq<byte>, k: nat)
    requires k < |s| && s[k] == STATUS_CLOSE
    ensures Accepts(role, STATUS_CLOSE, s[k + 1..]) <==> ClosedFrom(s, k)
  {
    hide Accepts;
    OnlyCloseAfterClose(role, s[k + 1..]);
    assert forall i :: k < i < |s| ==> s[i] == s[k + 1..][i - k - 1];
  }

  lemma AcceptedThenClosed(role: Role, s: seq<byte>) returns (k: nat)
    requires Accepts(role, STATUS_NONE, s)
    ensures k <= |s| && InGrammar(role, s[..k]) && ClosedFrom(s, k)
  {
    k := FirstClose(s);
    assert s == s[..k] + s[k..];
    AcceptsAppend(role, STATUS_NONE, s[..k], s[k..]);
    var ms := AcceptedInGrammar(role, [], [], STATUS_NONE, s[..k]);
    assert Flatten([]) + [] + s[..k] == s[..k];
    if k < |s| {
      assert s[k..][1..] == s[k + 1..];
      ClosedTail(role, s, k);
    }
  }

  lemma GrammarThenClosed(role: Role, s: seq<byte>, k: nat)
    requires k <= |s| && InGrammar(role, s[..k]) && ClosedFrom(s, k)
    ensures Accepts(role, STATUS_NONE, s)
  {
    var ms :| AllMessages(role, ms) && s[..k] <= Flatten(ms);
    GrammarAccepted(role, STATUS_NONE, s[..k], ms);
    if k < |s| {
      assert s[k..][1..] == s[k + 1..];
      ClosedTail(role, s, k);
    }
    assert s == s[..k] + s[k..];
    AcceptsAppend(role, STATUS_NONE, s[..k], s[k..]);
  }

  /** The check functions accept exactly the prefixes of message sequences, closed off
      by any number of close statuses. */
  lemma StatusGrammar(role: Role, s: seq<byte>)
    ensures Accepts(role, STATUS_NONE, s)
        <==> exists k :: 0 <= k <= |s| && InGrammar(role, s[..k]) && ClosedFrom(s, k)
  {
    hide Accepts, InGrammar, ClosedFrom;
    if Accepts(role, STATUS_NONE, s) {
      var k := AcceptedThenClosed(role, s);
    }
    if k :| 0 <= k <= |s| && InGrammar(role, s[..k]) && ClosedFrom(s, k) {
      GrammarThenClosed(role, s, k);
    }
  }
}
