/** The synchronous message broker of the virtual host: named channels of receivers,
    fan-out of messages, requests answered by every receiver of a channel, and a
    separate set of clock receivers (virtualhost broker/BrokerChannel.java,
    broker/SyncBrokerImp.java, broker/TimingChannel.java).

    Receivers are other components; they are told apart by an identity number. What a
    receiver does with a message is its own code, so sending yields the list of
    deliveries in the order they happen, and a request takes the receivers' answers as
    a function. */
module Broker {
  import opened Common
  import opened Values
  import VHostErrorCodes

  type ReceiverId = nat

  /** One call of `receiver.receive(msg)`. */
  datatype Delivery = Delivery(receiver: ReceiverId, msg: Message)

  /** One call of `receiver.update(tpf)` on a clock receiver. */
  datatype Tick = Tick(receiver: ReceiverId, tpf: real)

  /** The answers of the receivers to one fetch command. */
  type Answers = (ReceiverId, FetchCommand) -> Option<Value>

  /** How often `x` occurs in `s`. */
  function Count<T(==)>(s: seq<T>, x: T): nat
  {
    if s == [] then 0 else Count(s[..|s| - 1], x) + (if s[|s| - 1] == x then 1 else 0)
  }

  /** `addReceiver`: append unless already present. */
  function AddOnce(s: seq<ReceiverId>, r: ReceiverId): seq<ReceiverId>
  {
    if r in s then s else s + [r]
  }

  /** `List.remove(Object)`: drop the first occurrence, if any. */
  function RemoveFirst(s: seq<ReceiverId>, r: ReceiverId): seq<ReceiverId>
  {
    if s == [] then []
    else if s[0] == r then s[1..]
    else [s[0]] + RemoveFirst(s[1..], r)
  }

  /** The list a request builds: every receiver's answer, in receiver order, leaving
      out empty answers when `skipEmpties` is set. */
  function Collected(rs: seq<ReceiverId>, fetch: FetchCommand, skipEmpties: bool, answer: Answers): seq<Option<Value>>
  {
    if rs == [] then []
    else
      var opt := answer(rs[|rs| - 1], fetch);
      Collected(rs[..|rs| - 1], fetch, skipEmpties, answer) + (if opt.Some? || !skipEmpties then [opt] else [])
  }

  /** Every answer, in receiver order. */
  function AllAnswers(rs: seq<ReceiverId>, fetch: FetchCommand, answer: Answers): (r: seq<Option<Value>>)
    ensures |r| == |rs|
    ensures forall i :: 0 <= i < |rs| ==> r[i] == answer(rs[i], fetch)
  {
    seq(|rs|, i requires 0 <= i < |rs| => answer(rs[i], fetch))
  }

  /** `sub` is obtained from `s` by deleting elements: order is preserved. */
  predicate IsSubsequence<T(==)>(sub: seq<T>, s: seq<T>)
  {
    if sub == [] then true
    else if s == [] then false
    else if sub[|sub| - 1] == s[|s| - 1] then IsSubsequence(sub[..|sub| - 1], s[..|s| - 1])
    else IsSubsequence(sub, s[..|s| - 1])
  }

  // ---------------------------------------------------------------- list lemmas

  /** Adding a receiver twice is the same as adding it once; the list stays free of
      duplicates, and the receiver is in it exactly once. */
  lemma {:induction false} AddOnceIsIdempotent(s: seq<ReceiverId>, r: ReceiverId)
    requires NoRepeats(s)
    ensures AddOnce(AddOnce(s, r), r) == AddOnce(s, r)
    ensures NoRepeats(AddOnce(s, r))
    ensures Count(AddOnce(s, r), r) == 1
  {
    CountOfUnique(AddOnce(s, r), r);
  }

  /** Adding keeps the list free of duplicates and makes it non-empty. */
  lemma AddOnceKeeps(s: seq<ReceiverId>, r: ReceiverId)
    requires NoRepeats(s)
    ensures NoRepeats(AddOnce(s, r)) && AddOnce(s, r) != []
  {
  }

  /** In a list without duplicates an element occurs once, an absent one never. */
  lemma {:induction false} CountOfUnique(s: seq<ReceiverId>, r: ReceiverId)
    requires NoRepeats(s)
    ensures Count(s, r) == if r in s then 1 else 0
  {
    if s != [] {
      var init := s[..|s| - 1];
      CountOfUnique(init, r);
      assert s == init + [s[|s| - 1]];
      if s[|s| - 1] == r {
        assert r !in init by {
          forall i | 0 <= i < |init| ensures init[i] != r {
            assert s[i] != s[|s| - 1];
          }
        }
      }
    }
  }

  /** Removing a receiver from a list without duplicates takes out exactly that receiver,
      keeps the order of the others, and removing an absent one changes nothing. */
  lemma {:induction false} RemoveFirstOfUnique(s: seq<ReceiverId>, r: ReceiverId)
    requires NoRepeats(s)
    ensures r !in RemoveFirst(s, r)
    ensures NoRepeats(RemoveFirst(s, r))
    ensures forall x :: x in RemoveFirst(s, r) <==> x in s && x != r
    ensures IsSubsequence(RemoveFirst(s, r), s)
    ensures r !in s ==> RemoveFirst(s, r) == s
  {
    if s != [] && s[0] != r {
      RemoveFirstOfUnique(s[1..], r);
      var rest := RemoveFirst(s[1..], r);
      assert RemoveFirst(s, r) == [s[0]] + rest;
      forall i, j | 0 <= i < j < |[s[0]] + rest| ensures ([s[0]] + rest)[i] != ([s[0]] + rest)[j] {
        if i == 0 {
          assert ([s[0]] + rest)[j] in s[1..];
        }
      }
      SubsequenceConsLemma(s[0], rest, s[1..]);
      assert [s[0]] + s[1..] == s;
    } else if s != [] {
      SubsequenceOfTail(s);
    }
  }

  lemma {:induction false} SubsequenceReflexive<T>(s: seq<T>)
    ensures IsSubsequence(s, s)
  {
    if s != [] {
      SubsequenceReflexive(s[..|s| - 1]);
    }
  }

  /** Dropping the head of a list leaves a subsequence of it. */
  lemma {:induction false} SubsequenceOfTail<T>(s: seq<T>)
    requires s != []
    ensures IsSubsequence(s[1..], s)
  {
    if |s| == 1 {
    } else {
      SubsequenceOfTail(s[..|s| - 1]);
      assert s[1..][..|s[1..]| - 1] == s[..|s| - 1][1..];
    }
  }

  /** A subsequence of the tail, with the head put back in front, is a subsequence. */
  lemma {:induction false} SubsequenceConsLemma<T>(x: T, sub: seq<T>, s: seq<T>)
    requires IsSubsequence(sub, s)
    ensures IsSubsequence([x] + sub, [x] + s)
    decreases |s|
  {
    if sub == [] {
      if s == [] {
        assert [x] + sub == [x] + s;
        SubsequenceReflexive([x]);
      } else {
        assert ([x] + s)[..|[x] + s| - 1] == [x] + s[..|s| - 1];
        SubsequenceConsLemma(x, sub, s[..|s| - 1]);
      }
    } else {
      assert ([x] + s)[..|[x] + s| - 1] == [x] + s[..|s| - 1];
      assert ([x] + sub)[..|[x] + sub| - 1] == [x] + sub[..|sub| - 1];
      if sub[|sub| - 1] == s[|s| - 1] {
        SubsequenceConsLemma(x, sub[..|sub| - 1], s[..|s| - 1]);
      } else {
        SubsequenceConsLemma(x, sub, s[..|s| - 1]);
      }
    }
  }

  /** Without `skipEmpties`, a request yields one answer per receiver, in order. */
  lemma {:induction false} CollectedKeepsEveryAnswer(rs: seq<ReceiverId>, fetch: FetchCommand, answer: Answers)
    ensures Collected(rs, fetch, false, answer) == AllAnswers(rs, fetch, answer)
  {
    if rs != [] {
      CollectedKeepsEveryAnswer(rs[..|rs| - 1], fetch, answer);
    }
  }

  /** With `skipEmpties`, a request yields only present answers, each in the position
      order of its receiver, and it drops only empty ones: it has as many entries as
      there are present answers. */
  lemma {:induction false} CollectedSkipsOnlyEmpties(rs: seq<ReceiverId>, fetch: FetchCommand, answer: Answers)
    ensures var c := Collected(rs, fetch, true, answer);
      && (forall i :: 0 <= i < |c| ==> c[i].Some?)
      && IsSubsequence(c, AllAnswers(rs, fetch, answer))
      && |c| == |rs| - Count(AllAnswers(rs, fetch, answer), None)
  {
    if rs != [] {
      var init := rs[..|rs| - 1];
      var opt := answer(rs[|rs| - 1], fetch);
      CollectedSkipsOnlyEmpties(init, fetch, answer);
      var ci := Collected(init, fetch, true, answer);
      var c := Collected(rs, fetch, true, answer);
      var all := AllAnswers(rs, fetch, answer);
      var alli := AllAnswers(init, fetch, answer);
      assert all[..|all| - 1] == alli;
      assert all[|all| - 1] == opt;
      assert Count(all, None) == Count(alli, None) + (if opt.None? then 1 else 0);
      if opt.Some? {
        assert c == ci + [opt];
        assert c[..|c| - 1] == ci;
        assert forall i :: 0 <= i < |c| ==> c[i].Some? by {
          assert forall i :: 0 <= i < |ci| ==> c[i] == ci[i];
        }
      } else {
        assert c == ci;
        if c != [] {
          assert c[|c| - 1].Some?;
        }
      }
    }
  }

  // ---------------------------------------------------------------- BrokerChannel

  /** A named list of receivers without duplicates. */
  class BrokerChannel {
    const name: string
    var receivers: seq<ReceiverId>

    ghost predicate Valid()
      reads this
    {
      NoRepeats(receivers)
    }

    constructor (name: string)
      ensures this.name == name && receivers == [] && Valid()
    {
      this.name := name;
      receivers := [];
    }

    /** Adds the receiver unless it is already registered. */
    method AddReceiver(r: ReceiverId)
      requires Valid()
      modifies this
      ensures Valid()
      ensures receivers == AddOnce(old(receivers), r)
    {
      if r !in receivers {
        receivers := receivers + [r];
      }
    }

    /** Removes the receiver; an absent one is a no-op. */
    method RemoveReceiver(r: ReceiverId)
      requires Valid()
      modifies this
      ensures Valid()
      ensures receivers == RemoveFirst(old(receivers), r)
      ensures r !in receivers
      ensures forall x :: x in receivers <==> x in old(receivers) && x != r
    {
      RemoveFirstOfUnique(receivers, r);
      receivers := RemoveFirst(receivers, r);
    }

    /** Delivers the message to every receiver once, in list order. */
    method Send(msg: Message) returns (deliveries: seq<Delivery>)
      ensures |deliveries| == |receivers|
      ensures forall i :: 0 <= i < |receivers| ==> deliveries[i] == Delivery(receivers[i], msg)
    {
      deliveries := [];
      var i := 0;
      while i < |receivers|
        invariant 0 <= i <= |receivers|
        invariant |deliveries| == i
        invariant forall k :: 0 <= k < i ==> deliveries[k] == Delivery(receivers[k], msg)
      {
        deliveries := deliveries + [Delivery(receivers[i], msg)];
        i := i + 1;
      }
    }

    /** Asks every receiver, in list order, and collects the answers; empty answers are
        left out when `skipEmpties` is set. */
    method Request(fetch: FetchCommand, skipEmpties: bool, answer: Answers) returns (list: seq<Option<Value>>)
      ensures list == Collected(receivers, fetch, skipEmpties, answer)
    {
      list := [];
      var i := 0;
      while i < |receivers|
        invariant 0 <= i <= |receivers|
        invariant list == Collected(receivers[..i], fetch, skipEmpties, answer)
      {
        var opt := answer(receivers[i], fetch);
        if opt.Some? || !skipEmpties {
          list := list + [opt];
        }
        assert receivers[..i + 1][..i] == receivers[..i];
        i := i + 1;
      }
      assert receivers[..i] == receivers;
    }

    /** Holds exactly when no receiver is registered. */
    function IsEmpty(): (empty: bool)
      reads this
      ensures empty <==> forall r :: r !in receivers
    {
      if |receivers| == 0 then true else assert receivers[0] in receivers; false
    }
  }

  // ---------------------------------------------------------------- TimingChannel

  /** The clock receivers reached by a list of ticks. */
  function TickedReceivers(ticks: seq<Tick>): set<ReceiverId>
  {
    set i | 0 <= i < |ticks| :: ticks[i].receiver
  }

  lemma TickedReceiversSnoc(ticks: seq<Tick>, t: Tick)
    ensures TickedReceivers(ticks + [t]) == TickedReceivers(ticks) + {t.receiver}
  {
    var all := ticks + [t];
    assert all[|ticks|] == t;
    forall x | x in TickedReceivers(ticks) ensures x in TickedReceivers(all) {
      var i :| 0 <= i < |ticks| && ticks[i].receiver == x;
      assert all[i] == ticks[i];
    }
  }

  /** The set of clock receivers. */
  class TimingChannel {
    var receivers: set<ReceiverId>

    constructor ()
      ensures receivers == {}
    {
      receivers := {};
    }

    /** Adds the receiver; adding it again changes nothing. */
    method AddReceiver(r: ReceiverId)
      modifies this
      ensures receivers == old(receivers) + {r}
    {
      if r !in receivers {
        receivers := receivers + {r};
      }
    }

    /** Removes the receiver; an absent one is a no-op. */
    method RemoveReceiver(r: ReceiverId)
      modifies this
      ensures receivers == old(receivers) - {r}
    {
      receivers := receivers - {r};
    }

    /** Forwards the time step to every registered clock receiver exactly once, in the
        set's (unspecified) iteration order. */
    method Update(tpf: real) returns (ticks: seq<Tick>)
      ensures |ticks| == |receivers|
      ensures forall i :: 0 <= i < |ticks| ==> ticks[i].tpf == tpf && ticks[i].receiver in receivers
      ensures forall i, j :: 0 <= i < j < |ticks| ==> ticks[i].receiver != ticks[j].receiver
      ensures TickedReceivers(ticks) == receivers
    {
      ticks := [];
      var todo := receivers;
      while todo != {}
        invariant TicksSoFar(ticks, todo, receivers, tpf)
        decreases |todo|
      {
        var r :| r in todo;
        TickOne(ticks, todo, receivers, tpf, r);
        ticks := ticks + [Tick(r, tpf)];
        todo := todo - {r};
      }
    }
  }

  /** The loop state of `TimingChannel.Update`: `ticks` reached each receiver outside
      `todo` once, with the time step. */
  predicate TicksSoFar(ticks: seq<Tick>, todo: set<ReceiverId>, receivers: set<ReceiverId>, tpf: real)
  {
    && todo <= receivers
    && |ticks| + |todo| == |receivers|
    && (forall i :: 0 <= i < |ticks| ==> ticks[i].tpf == tpf && ticks[i].receiver in receivers - todo)
    && (forall i, j :: 0 <= i < j < |ticks| ==> ticks[i].receiver != ticks[j].receiver)
    && TickedReceivers(ticks) == receivers - todo
  }

  /** Ticking one more receiver from `todo` keeps the loop state. */
  lemma {:induction false} TickOne(ticks: seq<Tick>, todo: set<ReceiverId>, receivers: set<ReceiverId>, tpf: real, r: ReceiverId)
    requires TicksSoFar(ticks, todo, receivers, tpf) && r in todo
    ensures TicksSoFar(ticks + [Tick(r, tpf)], todo - {r}, receivers, tpf)
  {
    var next := ticks + [Tick(r, tpf)];
    TickedReceiversSnoc(ticks, Tick(r, tpf));
    assert |todo - {r}| == |todo| - 1;
    forall i | 0 <= i < |next|
      ensures next[i].tpf == tpf && next[i].receiver in receivers - (todo - {r})
    {
      if i < |ticks| {
        assert next[i] == ticks[i];
      }
    }
    forall i, j | 0 <= i < j < |next|
      ensures next[i].receiver != next[j].receiver
    {
      assert next[i] == ticks[i];
      if j < |ticks| {
        assert next[j] == ticks[j];
      }
    }
  }

  // ---------------------------------------------------------------- SyncBroker

  /** The error code the broker's time-step check uses. It is not declared among the
      virtual host's error codes, which are otherwise listed in `VHostErrorCodes`. */
  const V50700: string := "V50700"

  /** The check a time step must pass before it is forwarded: finite and not negative. */
  function CheckTimeStep(tpf: Float): (o: Outcome)
    ensures o.Pass? <==> tpf.Finite? && tpf.value >= 0.0
    ensures o.Fail? ==> o.failure.kind == IllegalArgument && Contains(o.failure.message, V50700)
  {
    if tpf.Finite? && tpf.value >= 0.0 then Pass
    else
      var msg := "Time per frame must be a finite, non-negative number.";
      VHostErrorCodes.AssembledMessageCarriesMsgAndCode(Some(msg), Some(V50700));
      Fail(Failure(IllegalArgument, VHostErrorCodes.AssembleCodedMsg(Some(msg), Some(V50700))))
  }

  /** `SyncBrokerImp.update` as the code has it: an empty body, so every time step,
      however malformed, is accepted and nothing is forwarded. */
  function UpdateAsWritten(tpf: Float): (r: (Outcome, seq<Tick>))
    ensures r.0.Pass? && r.1 == []
  {
    (Pass, [])
  }

  /** The discrepancy: as written, `update(NaN)` neither fails nor reaches a registered
      clock receiver; the intended check rejects it. */
  lemma AsWrittenUpdateAcceptsNaN()
    ensures UpdateAsWritten(NaN).0.Pass? && CheckTimeStep(NaN).Fail?
    ensures UpdateAsWritten(Finite(4.2)).1 == []
  {
  }

  /** The broker: channels by name, each non-empty, plus the timing channel. */
  class SyncBroker {
    var channels: map<string, BrokerChannel>
    const timing: TimingChannel
    /** The receivers of every channel, by channel name. */
    ghost var Subscribers: map<string, seq<ReceiverId>>
    ghost var Repr: set<object>

    ghost predicate Valid()
      reads this, Repr
    {
      && this in Repr && timing in Repr
      && (forall n :: n in channels ==> channels[n] in Repr)
      && (forall n :: n in channels ==>
            channels[n].name == n && NoRepeats(channels[n].receivers) && channels[n].receivers != [])
      && channels.Keys == Subscribers.Keys
      && (forall n :: n in channels ==> channels[n].receivers == Subscribers[n])
    }


    constructor ()
      ensures Valid() && fresh(Repr)
      ensures Subscribers == map[] && timing.receivers == {}
    {
      channels := map[];
      Subscribers := map[];
      timing := new TimingChannel();
      new;
      Repr := {this, timing};
    }

    /** Registers the receiver on the channel, creating the channel when it is new.
        Registering again changes nothing. */
    method RegisterToChannel(r: ReceiverId, channel: string)
      requires Valid()
      modifies Repr
      ensures Valid() && fresh(Repr - old(Repr))
      ensures Subscribers == old(Subscribers)[channel :=
        AddOnce(if channel in old(Subscribers) then old(Subscribers)[channel] else [], r)]
      ensures timing.receivers == old(timing.receivers)
    {
      if channel in channels {
        JoinChannel(r, channel);
      } else {
        assert AddOnce([], r) == [r];
        OpenChannel(r, channel);
      }
    }

    /** The branch of `RegisterToChannel` for a channel that exists. */
    method JoinChannel(r: ReceiverId, channel: string)
      requires Valid() && channel in channels
      modifies Repr
      ensures Valid() && Repr == old(Repr)
      ensures Subscribers == old(Subscribers)[channel := AddOnce(old(Subscribers)[channel], r)]
      ensures timing.receivers == old(timing.receivers)
    {
      var c := channels[channel];
      AddOnceKeeps(c.receivers, r);
      assert forall n :: n in channels && n != channel ==> channels[n].name != c.name;
      c.AddReceiver(r);
      Subscribers := Subscribers[channel := c.receivers];
    }

    /** The branch of `RegisterToChannel` for a new channel. */
    method OpenChannel(r: ReceiverId, channel: string)
      requires Valid() && channel !in channels
      modifies Repr
      ensures Valid() && fresh(Repr - old(Repr))
      ensures Subscribers == old(Subscribers)[channel := [r]]
      ensures timing.receivers == old(timing.receivers)
    {
      var c := new BrokerChannel(channel);
      c.AddReceiver(r);
      assert c.receivers == [r];
      assert Valid();
      AddOnceKeeps([], r);
      Repr := Repr + {c};
      channels := channels[channel := c];
      Subscribers := Subscribers[channel := c.receivers];
    }

    /** Removes the receiver from the channel; an unknown channel is a no-op, and a
        channel left without receivers is dropped. */
    method DeregisterFromChannel(r: ReceiverId, channel: string)
      requires Valid()
      modifies Repr
      ensures Valid() && Repr == old(Repr)
      ensures channel !in old(Subscribers) ==> Subscribers == old(Subscribers)
      ensures channel in old(Subscribers) ==>
        var rest := RemoveFirst(old(Subscribers)[channel], r);
        Subscribers == if rest == [] then old(Subscribers) - {channel} else old(Subscribers)[channel := rest]
      ensures timing.receivers == old(timing.receivers)
    {
      if channel !in channels {
        return;
      }
      var c := channels[channel];
      c.RemoveReceiver(r);
      if c.IsEmpty() {
        channels := channels - {channel};
        Subscribers := Subscribers - {channel};
      } else {
        Subscribers := Subscribers[channel := c.receivers];
      }
    }

    /** Sends the message to every receiver of the channel; an unknown channel gets
        nothing delivered. */
    method Send(msg: Message, channel: string) returns (deliveries: seq<Delivery>)
      requires Valid()
      ensures channel !in Subscribers ==> deliveries == []
      ensures channel in Subscribers ==>
        |deliveries| == |Subscribers[channel]|
        && forall i :: 0 <= i < |deliveries| ==> deliveries[i] == Delivery(Subscribers[channel][i], msg)
    {
      deliveries := [];
      if channel in channels {
        deliveries := channels[channel].Send(msg);
      }
    }

    /** Asks every receiver of the channel; an unknown channel answers an empty list. */
    method Request(channel: string, fetch: FetchCommand, skipEmpties: bool, answer: Answers)
      returns (list: seq<Option<Value>>)
      requires Valid()
      ensures channel !in Subscribers ==> list == []
      ensures channel in Subscribers ==> list == Collected(Subscribers[channel], fetch, skipEmpties, answer)
    {
      list := [];
      if channel in channels {
        list := channels[channel].Request(fetch, skipEmpties, answer);
      }
    }

    /** Adds a clock receiver. */
    method RegisterToTiming(r: ReceiverId)
      requires Valid()
      modifies timing
      ensures Valid()
      ensures timing.receivers == old(timing.receivers) + {r}
    {
      timing.AddReceiver(r);
    }

    /** Removes a clock receiver; it gets no further time steps. */
    method DeregisterFromTiming(r: ReceiverId)
      requires Valid()
      modifies timing
      ensures Valid()
      ensures timing.receivers == old(timing.receivers) - {r}
    {
      timing.RemoveReceiver(r);
    }

    /** Checks the time step and forwards it to every clock receiver once. */
    method Update(tpf: Float) returns (outcome: Outcome, ticks: seq<Tick>)
      requires Valid()
      ensures outcome == CheckTimeStep(tpf)
      ensures outcome.Fail? ==> ticks == []
      ensures outcome.Pass? ==>
        && |ticks| == |timing.receivers|
        && (forall i :: 0 <= i < |ticks| ==> ticks[i].tpf == tpf.value && ticks[i].receiver in timing.receivers)
        && TickedReceivers(ticks) == timing.receivers
    {
      outcome := CheckTimeStep(tpf);
      ticks := [];
      if outcome.Pass? {
        ticks := timing.Update(tpf.value);
      }
    }
  }

  /** Registering twice gives a single delivery: after two registrations of the same
      receiver, a send reaches it once. */
  lemma {:induction false} RegisteringTwiceDeliversOnce(subs: seq<ReceiverId>, r: ReceiverId)
    requires NoRepeats(subs)
    ensures Count(AddOnce(AddOnce(subs, r), r), r) == 1
  {
    AddOnceIsIdempotent(subs, r);
  }
}
