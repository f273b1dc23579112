/** The subscription registry: a map from channel name to an active flag
    (`active_subscriptions_`), and the order in which it is listed. */
module Registry {

  /** The channels whose flag is set. */
  function ActiveChannels(subscriptions: map<string, bool>): set<string> {
    set c | c in subscriptions && subscriptions[c]
  }

  /** Marking a channel active adds it to the active channels and nothing
      else; doing it twice is the same as doing it once. */
  lemma AddSubscriptionEffect(subscriptions: map<string, bool>, channel: string)
    ensures ActiveChannels(subscriptions[channel := true]) == ActiveChannels(subscriptions) + {channel}
    ensures subscriptions[channel := true][channel := true] == subscriptions[channel := true]
  {
  }

  /** Marking a channel inactive removes it from the active channels and
      nothing else, but keeps its entry. */
  lemma RemoveSubscriptionEffect(subscriptions: map<string, bool>, channel: string)
    ensures ActiveChannels(subscriptions[channel := false]) == ActiveChannels(subscriptions) - {channel}
    ensures (subscriptions[channel := false]).Keys == subscriptions.Keys + {channel}
  {
  }

  /** Strict lexicographic order on channel names, character by character
      (the order of `std::map<std::string, bool>`'s keys). */
  predicate Less(a: string, b: string)
    decreases |a|
  {
    if a == [] then b != []
    else if b == [] then false
    else if a[0] != b[0] then a[0] < b[0]
    else Less(a[1..], b[1..])
  }

  lemma {:induction false} LessIrreflexive(a: string)
    ensures !Less(a, a)
    decreases |a|
  {
    if a != [] {
      LessIrreflexive(a[1..]);
    }
  }

  lemma {:induction false} LessTotal(a: string, b: string)
    ensures a == b || Less(a, b) || Less(b, a)
    decreases |a|
  {
    if a != [] && b != [] && a[0] == b[0] {
      LessTotal(a[1..], b[1..]);
      if a[1..] == b[1..] {
        assert a == [a[0]] + a[1..] && b == [b[0]] + b[1..];
      }
    }
  }

  lemma {:induction false} LessTransitive(a: string, b: string, c: string)
    requires Less(a, b) && Less(b, c)
    ensures Less(a, c)
    decreases |a|
  {
    if a != [] && a[0] == b[0] && b[0] == c[0] {
      LessTransitive(a[1..], b[1..], c[1..]);
    }
  }

  /** `m` is the least name of `s`. */
  predicate IsLeast(m: string, s: set<string>) {
    m in s && forall d :: d in s && d != m ==> Less(m, d)
  }

  /** Every non-empty finite set of names has a least element. */
  lemma {:induction false} LeastExists(s: set<string>)
    requires s != {}
    ensures exists m :: IsLeast(m, s)
    decreases |s|
  {
    var x :| x in s;
    if s == {x} {
      assert IsLeast(x, s);
    } else {
      var rest := s - {x};
      LeastExists(rest);
      var m :| IsLeast(m, rest);
      LessTotal(m, x);
      if Less(m, x) {
        assert IsLeast(m, s);
      } else {
        forall d | d in s && d != x
          ensures Less(x, d)
        {
          if d != m {
            assert d in rest;
            LessTransitive(x, m, d);
          }
        }
        assert IsLeast(x, s);
      }
    }
  }
}
