/**
 The order law of one channel: for each role, what was accepted is what was
 settled, in the same order, followed by what is still buffered. Messages can
 leave by a direct write, a promotion, a join, an eviction, an expiry or a
 close; the law says that together these act as one queue.
 */
module DeliveryOrder {
  import opened Options
  import opened RelayTypes
  import opened Ledgers
  import opened ManagerSpec
  import opened ManagerSafety

  ghost predicate InOrder(c: Chan, role: ClientType) {
    For(c.accepted, role) == For(Plain(c.settled), role) + For(c.buffer, role)
  }

  ghost predicate ChanInOrder(c: Chan) {
    InOrder(c, Dapp) && InOrder(c, Wallet)
  }

  ghost predicate AllInOrder(m: Manager) {
    forall i :: 0 <= i < |m.store| ==> ChanInOrder(m.store[i])
  }

  /** Nothing waits for `role`. */
  ghost predicate NoneFor(ms: seq<Message>, role: ClientType) {
    forall msg :: msg in ms ==> msg.target != role
  }

  lemma {:induction false} NoneForIsEmpty(ms: seq<Message>, role: ClientType)
    ensures For(ms, role) == [] <==> NoneFor(ms, role)
  {
    if ms != [] {
      var init, last := ms[..|ms| - 1], ms[|ms| - 1];
      assert ms == init + [last];
      NoneForIsEmpty(init, role);
    }
  }

  lemma ForOne(msg: Message, role: ClientType)
    ensures For([msg], role) == if msg.target == role then [msg] else []
  {
    assert [msg][..0] == [];
  }

  // ---------- Ways to take messages out in order ----------

  ghost predicate FrontOf(ms: seq<Message>, keep: seq<Message>, out: seq<Message>, role: ClientType) {
    For(ms, role) == For(out, role) + For(keep, role)
  }

  lemma WithdrawKeepsRole(c: Chan, after: Chan, keep: seq<Message>, out: seq<Message>, role: ClientType)
    requires InOrder(c, role) && FrontOf(c.buffer, keep, out, role)
    requires after.accepted == c.accepted && after.buffer == keep && Plain(after.settled) == Plain(c.settled) + out
    ensures InOrder(after, role)
  {
    PickConcat(Plain(c.settled), out, ForRole(role), true);
    hide Pick;
    var settled, left, kept := For(Plain(c.settled), role), For(out, role), For(keep, role);
    assert settled + (left + kept) == (settled + left) + kept;
  }

  lemma WithdrawKeepsOrder(m: Manager, ref: nat, keep: seq<Message>, out: seq<Message>, fate: Fate)
    requires ref < |m.store| && AllInOrder(m)
    requires FrontOf(m.store[ref].buffer, keep, out, Dapp) && FrontOf(m.store[ref].buffer, keep, out, Wallet)
    ensures AllInOrder(Withdraw(m, ref, keep, out, fate))
  {
    hide FrontOf, InOrder;
    var c := m.store[ref];
    var after := Withdraw(m, ref, keep, out, fate);
    assert ChanInOrder(c);
    PlainTag(c.settled, out, fate);
    WithdrawKeepsRole(c, after.store[ref], keep, out, Dapp);
    WithdrawKeepsRole(c, after.store[ref], keep, out, Wallet);
  }

  /** With two roles, what is not for one is for the other. */
  lemma {:induction false} NotMineIsYours(ms: seq<Message>, role: ClientType)
    ensures Pick(ms, ForRole(role), false) == For(ms, Other(role))
  {
    if ms != [] {
      NotMineIsYours(ms[..|ms| - 1], role);
    }
  }

  lemma PickRoleFront(ms: seq<Message>, role: ClientType, other: ClientType)
    ensures FrontOf(ms, Pick(ms, ForRole(role), false), Pick(ms, ForRole(role), true), other)
  {
    NotMineIsYours(ms, role);
    PickAll(For(ms, role), ForRole(other), role == other);
    PickAll(For(ms, Other(role)), ForRole(other), role != other);
  }

  lemma ExpiredFront(ms: seq<Message>, now: nat, role: ClientType)
    requires TimeOrdered(ms)
    ensures FrontOf(ms, Pick(ms, OlderThan(now), false), Pick(ms, OlderThan(now), true), role)
  {
    ExpiredArePrefix(ms, now);
    PickConcat(Pick(ms, OlderThan(now), true), Pick(ms, OlderThan(now), false), ForRole(role), true);
  }

  /** The oldest message for its role may leave from the middle of the buffer. */
  lemma FirstForFront(ms: seq<Message>, i: nat, role: ClientType)
    requires i < |ms|
    requires forall j :: 0 <= j < i ==> ms[j].target != ms[i].target
    ensures FrontOf(ms, Without(ms, i), [ms[i]], role)
  {
    hide Pick;
    var before, after := ms[..i], ms[i + 1..];
    assert ms == (before + [ms[i]]) + after;
    PickConcat(before + [ms[i]], after, ForRole(role), true);
    PickConcat(before, [ms[i]], ForRole(role), true);
    PickConcat(before, after, ForRole(role), true);
    ForOne(ms[i], role);
    if role == ms[i].target {
      NoneForIsEmpty(before, role);
    }
  }

  lemma AllFront(ms: seq<Message>, role: ClientType)
    ensures FrontOf(ms, [], ms, role)
  {
  }

  // ---------- Arrivals ----------

  lemma AppendKeepsRole(c: Chan, after: Chan, msg: Message, role: ClientType)
    requires InOrder(c, role)
    requires after.accepted == c.accepted + [msg] && after.buffer == c.buffer + [msg] && after.settled == c.settled
    ensures InOrder(after, role)
  {
    PickSnoc(c.accepted, msg, ForRole(role), true);
    PickSnoc(c.buffer, msg, ForRole(role), true);
    hide Pick;
    var settled, waiting := For(Plain(c.settled), role), For(c.buffer, role);
    assert settled + (waiting + [msg]) == (settled + waiting) + [msg];
    assert waiting + [] == waiting;
  }

  lemma AppendKeepsOrder(m: Manager, ref: nat, msg: Message)
    requires ref < |m.store| && AllInOrder(m)
    ensures AllInOrder(Append(m, ref, msg))
  {
    hide InOrder;
    var after := Append(m, ref, msg);
    assert ChanInOrder(m.store[ref]);
    AppendKeepsRole(m.store[ref], after.store[ref], msg, Dapp);
    AppendKeepsRole(m.store[ref], after.store[ref], msg, Wallet);
  }

  lemma PutKeepsOrder(m: Manager, ref: nat, c: Chan)
    requires ref < |m.store| && AllInOrder(m)
    requires c.accepted == m.store[ref].accepted && c.settled == m.store[ref].settled && c.buffer == m.store[ref].buffer
    ensures AllInOrder(m.Put(ref, c))
  {
    assert ChanInOrder(m.store[ref]);
    assert ChanInOrder(c);
  }

  /** Another message than `msg` already waits for its role. */
  ghost predicate Overtakes(ms: seq<Message>, msg: Message) {
    exists w :: w in For(ms, msg.target) && w != msg
  }

  lemma DirectLeaves(m: Manager, ref: nat, s: SocketId, target: SocketId, msg: Message)
    requires ref < |m.store|
    ensures var c, after := m.store[ref], RouteDirect(m, ref, s, target, msg).0;
            && |after.store| == |m.store|
            && after.store[ref].accepted == c.accepted + [msg]
            && after.store[ref].settled == c.settled + Tag([msg], Handed)
            && after.store[ref].buffer == c.buffer
            && (forall i :: 0 <= i < |m.store| && i != ref ==> after.store[i] == m.store[i])
  {
  }

  /** A direct write keeps the law exactly when it overtakes no other message waiting for its target. */
  lemma DirectKeepsOrderIff(m: Manager, ref: nat, s: SocketId, target: SocketId, msg: Message)
    requires ref < |m.store| && AllInOrder(m)
    ensures AllInOrder(RouteDirect(m, ref, s, target, msg).0) <==> !Overtakes(m.store[ref].buffer, msg)
  {
    hide RouteDirect, InOrder, Overtakes, Pick;
    var c, after := m.store[ref], RouteDirect(m, ref, s, target, msg).0;
    assert ChanInOrder(c);
    DirectLeaves(m, ref, s, target, msg);
    PlainTag(c.settled, [msg], Handed);
    DirectKeepsOtherRole(c, after.store[ref], msg);
    DirectKeepsRoleIff(c, after.store[ref], msg);
    assert ChanInOrder(after.store[ref]) <==> !Overtakes(c.buffer, msg);
    if ChanInOrder(after.store[ref]) {
      forall i | 0 <= i < |after.store| ensures ChanInOrder(after.store[i]) {
        assert ChanInOrder(m.store[i]);
      }
    }
  }

  lemma DirectKeepsOtherRole(c: Chan, after: Chan, msg: Message)
    requires InOrder(c, Other(msg.target))
    requires after.accepted == c.accepted + [msg] && Plain(after.settled) == Plain(c.settled) + [msg]
    requires after.buffer == c.buffer
    ensures InOrder(after, Other(msg.target))
  {
    var other := Other(msg.target);
    PickSnoc(c.accepted, msg, ForRole(other), true);
    PickSnoc(Plain(c.settled), msg, ForRole(other), true);
  }

  lemma DirectKeepsRoleIff(c: Chan, after: Chan, msg: Message)
    requires InOrder(c, msg.target)
    requires after.accepted == c.accepted + [msg] && Plain(after.settled) == Plain(c.settled) + [msg]
    requires after.buffer == c.buffer
    ensures InOrder(after, msg.target) <==> !Overtakes(c.buffer, msg)
  {
    PickSnoc(c.accepted, msg, ForRole(msg.target), true);
    PickSnoc(Plain(c.settled), msg, ForRole(msg.target), true);
    hide Pick;
    var settled, waiting := For(Plain(c.settled), msg.target), For(c.buffer, msg.target);
    assert For(after.accepted, msg.target) == settled + (waiting + [msg]) by {
      assert (settled + waiting) + [msg] == settled + (waiting + [msg]);
    }
    assert For(Plain(after.settled), msg.target) + waiting == settled + ([msg] + waiting) by {
      assert (settled + [msg]) + waiting == settled + ([msg] + waiting);
    }
    PrefixCancels(settled, waiting + [msg], [msg] + waiting);
    RotatesIffConstant(waiting, msg);
  }

  lemma PrefixCancels(p: seq<Message>, a: seq<Message>, b: seq<Message>)
    ensures p + a == p + b <==> a == b
  {
    assert (p + a)[|p|..] == a;
    assert (p + b)[|p|..] == b;
  }

  lemma {:induction false} RotatesIffConstant(ws: seq<Message>, x: Message)
    ensures ws + [x] == [x] + ws <==> forall w :: w in ws ==> w == x
  {
    if ws != [] {
      var rest := ws[1..];
      assert ws == [ws[0]] + rest;
      assert ws[0] in ws;
      assert forall w :: w in ws <==> w == ws[0] || w in rest;
      RotatesIffConstant(rest, x);
      if ws + [x] == [x] + ws {
        assert (ws + [x])[0] == x;
        assert (ws + [x])[1..] == rest + [x];
        assert ([x] + ws)[1..] == ws;
      }
      if ws[0] == x && rest + [x] == [x] + rest {
        assert ws + [x] == [x] + (rest + [x]);
        assert [x] + ws == [x] + ([x] + rest);
      }
    }
  }
}
