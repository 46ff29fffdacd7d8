/** The edge-triggered reachability monitor (`check_server`): one tick per interval,
    the probe result and each subscriber's delivery result passed in. */
module Monitor {

  import opened Wrappers
  import opened Ids

  /** One attempted direct message to a subscriber: who, which of the two alert texts
      (server up or down), and whether `fetch_user` and `send` both went through. */
  datatype Delivery = Delivery(to: UserId, online: bool, delivered: bool)

  /** The outcome of one tick: the new `last_status`, whether the tick saw a change,
      and the deliveries it attempted, in order. */
  datatype Tick = Tick(last: Option<bool>, notified: bool, deliveries: seq<Delivery>)

  /** The subscriber ids a list of deliveries went to. */
  function Recipients(ds: seq<Delivery>): (us: seq<UserId>)
    ensures |us| == |ds|
    ensures forall i :: 0 <= i < |ds| ==> us[i] == ds[i].to
  {
    if ds == [] then [] else [ds[0].to] + Recipients(ds[1..])
  }

  /** The loop over `ALERT_USERS`: every subscriber is attempted once, in list order, and a
      failed delivery (its flag false) neither stops nor alters the attempts after it. */
  function FanOut(users: seq<UserId>, online: bool, outcomes: seq<bool>): (ds: seq<Delivery>)
    requires |outcomes| == |users|
    ensures |ds| == |users|
    ensures forall i :: 0 <= i < |ds| ==> ds[i] == Delivery(users[i], online, outcomes[i])
  {
    if users == [] then [] else [Delivery(users[0], online, outcomes[0])] + FanOut(users[1..], online, outcomes[1..])
  }

  /** One run of `check_server` with probe result `online`. The first tick only seeds the state;
      later ticks notify exactly when the result differs from the stored one; in every case the
      stored status becomes the probe result, whatever the deliveries did. */
  function CheckServer(last: Option<bool>, users: seq<UserId>, online: bool, outcomes: seq<bool>): (t: Tick)
    requires |outcomes| == |users|
    ensures t.last == Some(online)
    ensures t.notified <==> (last.Some? && last.value != online)
    ensures t.notified ==> Recipients(t.deliveries) == users
    ensures t.notified ==> forall i :: 0 <= i < |t.deliveries| ==> t.deliveries[i].online == online
    ensures !t.notified ==> t.deliveries == []
  {
    match last
    case None => Tick(Some(online), false, [])
    case Some(prev) =>
      if online != prev then
        var ds := FanOut(users, online, outcomes);
        assert Recipients(ds) == users;
        Tick(Some(online), true, ds)
      else Tick(last, false, [])
  }

  /** A probe result together with the per-subscriber delivery results of that tick. */
  datatype Probe = Probe(online: bool, outcomes: seq<bool>)

  predicate WellFormed(users: seq<UserId>, probes: seq<Probe>) {
    forall k :: 0 <= k < |probes| ==> |probes[k].outcomes| == |users|
  }

  /** The probe results of a sequence of ticks. */
  function Observations(probes: seq<Probe>): (rs: seq<bool>)
    ensures |rs| == |probes|
    ensures forall k :: 0 <= k < |probes| ==> rs[k] == probes[k].online
  {
    if probes == [] then [] else [probes[0].online] + Observations(probes[1..])
  }

  /** The reference count: how many adjacent pairs of `rs` differ. */
  function Changes(rs: seq<bool>): nat {
    if |rs| < 2 then 0 else (if rs[0] != rs[1] then 1 else 0) + Changes(rs[1..])
  }

  /** The monitor over several ticks: final `last_status`, ticks that notified, deliveries. */
  datatype Trace = Trace(last: Option<bool>, notifications: nat, deliveries: seq<Delivery>)

  function Run(last: Option<bool>, users: seq<UserId>, probes: seq<Probe>): Trace
    requires WellFormed(users, probes)
    decreases |probes|
  {
    if probes == [] then Trace(last, 0, [])
    else
      var t := CheckServer(last, users, probes[0].online, probes[0].outcomes);
      var rest := Run(t.last, users, probes[1..]);
      Trace(rest.last, (if t.notified then 1 else 0) + rest.notifications, t.deliveries + rest.deliveries)
  }

  /** Starting from the unset sentinel, the number of notifying ticks is the number of adjacent
      changes in the probe results; every notification reaches every subscriber; and the stored
      status ends as the last probe result. */
  lemma {:induction false} RunCountsChanges(users: seq<UserId>, probes: seq<Probe>)
    requires WellFormed(users, probes)
    ensures Run(None, users, probes).notifications == Changes(Observations(probes))
    ensures |Run(None, users, probes).deliveries| == |users| * Changes(Observations(probes))
    ensures probes != [] ==> Run(None, users, probes).last == Some(probes[|probes| - 1].online)
  {
    if probes != [] {
      var t := CheckServer(None, users, probes[0].online, probes[0].outcomes);
      assert !t.notified && t.last == Some(probes[0].online);
      RunFromSeed(users, probes[0].online, probes[1..]);
      RunEndsAtLastProbe(users, None, probes);
      assert [probes[0].online] + Observations(probes[1..]) == Observations(probes);
    }
  }

  /** Whatever the starting state, after at least one tick `last_status` is the last probe result. */
  lemma {:induction false} RunEndsAtLastProbe(users: seq<UserId>, last: Option<bool>, probes: seq<Probe>)
    requires WellFormed(users, probes) && probes != []
    ensures Run(last, users, probes).last == Some(probes[|probes| - 1].online)
    decreases |probes|
  {
    var next := Some(probes[0].online);
    if |probes| == 1 {
      assert Run(next, users, probes[1..]) == Trace(next, 0, []);
    } else {
      RunEndsAtLastProbe(users, next, probes[1..]);
      assert probes[1..][|probes[1..]| - 1] == probes[|probes| - 1];
    }
  }

  /** The seeded case: a stored status `b` counts as the observation before `probes`. */
  lemma {:induction false} RunFromSeed(users: seq<UserId>, b: bool, probes: seq<Probe>)
    requires WellFormed(users, probes)
    ensures Run(Some(b), users, probes).notifications == Changes([b] + Observations(probes))
    ensures |Run(Some(b), users, probes).deliveries| == |users| * Changes([b] + Observations(probes))
    decreases |probes|
  {
    if probes != [] {
      var next := probes[0].online;
      var t := CheckServer(Some(b), users, next, probes[0].outcomes);
      var rest := Run(Some(next), users, probes[1..]);
      var c := if b != next then 1 else 0;
      var obs := [b] + Observations(probes);
      RunFromSeed(users, next, probes[1..]);
      UnfoldRun(users, b, probes);
      ChangesStep(b, probes);
      assert Changes(obs) == c + rest.notifications;
      assert |t.deliveries| == |users| * c;
      MulDistributes(|users|, c, rest.notifications);
    }
  }

  lemma UnfoldRun(users: seq<UserId>, b: bool, probes: seq<Probe>)
    requires WellFormed(users, probes) && probes != []
    ensures var t := CheckServer(Some(b), users, probes[0].online, probes[0].outcomes);
            var rest := Run(Some(probes[0].online), users, probes[1..]);
            Run(Some(b), users, probes) == Trace(rest.last, (if t.notified then 1 else 0) + rest.notifications, t.deliveries + rest.deliveries)
  {
  }

  lemma ChangesStep(b: bool, probes: seq<Probe>)
    requires probes != []
    ensures Changes([b] + Observations(probes)) == (if b != probes[0].online then 1 else 0) + Changes([probes[0].online] + Observations(probes[1..]))
  {
    var obs := [b] + Observations(probes);
    assert obs[1..] == [probes[0].online] + Observations(probes[1..]);
  }

  lemma MulDistributes(a: int, b: int, c: int)
    ensures a * (b + c) == a * b + a * c
  {
  }

  /** A worked example, with one subscriber whose second delivery fails:
      up, up, down, down, up notifies twice and ends with the server up. */
  lemma ExampleTwoNotifications()
    ensures Run(None, [7], [Probe(true, [true]), Probe(true, [true]), Probe(false, [true]), Probe(false, [true]), Probe(true, [false])])
         == Trace(Some(true), 2, [Delivery(7, false, true), Delivery(7, true, false)])
  {
  }
}
