/** The pending list of JMX exception MBeans the newer writer still has to subscribe to. */
module Subscriptions {

  /** An MBean object name, by the text it is built from. */
  type ObjectName = string

  /** The platform MBean server as the scan sees it: whether a name is registered, and
      whether `addNotificationListener` on it returns normally (it may throw
      `InstanceNotFoundException`). */
  datatype MBeanServer = MBeanServer(isRegistered: ObjectName -> bool, subscribeOk: ObjectName -> bool)

  /** A listener gets attached to `name`: it is registered and the subscription succeeds. */
  predicate Attaches(server: MBeanServer, name: ObjectName)
  {
    server.isRegistered(name) && server.subscribeOk(name)
  }

  /** The names a scan leaves in the list, in their original order. */
  function StillPending(server: MBeanServer, names: seq<ObjectName>): (r: seq<ObjectName>)
    ensures |r| <= |names|
    ensures forall x :: x in r <==> x in names && !Attaches(server, x)
  {
    if names == [] then []
    else
      var init, last := names[..|names| - 1], names[|names| - 1];
      assert names == init + [last];
      StillPending(server, init) + (if Attaches(server, last) then [] else [last])
  }

  /** The names a scan subscribes to, in the order it visits them. */
  function Subscribed(server: MBeanServer, names: seq<ObjectName>): (r: seq<ObjectName>)
    ensures forall x :: x in r <==> x in names && Attaches(server, x)
  {
    if names == [] then []
    else
      var init, last := names[..|names| - 1], names[|names| - 1];
      assert names == init + [last];
      Subscribed(server, init) + (if Attaches(server, last) then [last] else [])
  }

  /** `a` is `b` with some elements taken out, the rest in order. */
  predicate IsSubsequence(a: seq<ObjectName>, b: seq<ObjectName>)
    decreases |b|
  {
    if a == [] then true
    else if b == [] then false
    else if a[|a| - 1] == b[|b| - 1] then IsSubsequence(a[..|a| - 1], b[..|b| - 1])
    else IsSubsequence(a, b[..|b| - 1])
  }

  /** The scan only removes entries: what stays keeps its relative order. */
  lemma {:induction false} StillPendingIsSubsequence(server: MBeanServer, names: seq<ObjectName>)
    ensures IsSubsequence(StillPending(server, names), names)
    decreases |names|
  {
    if names != [] {
      var init := names[..|names| - 1];
      StillPendingIsSubsequence(server, init);
      var r := StillPending(server, names);
      if !Attaches(server, names[|names| - 1]) {
        assert r[..|r| - 1] == StillPending(server, init);
      } else {
        assert r == StillPending(server, init);
      }
    }
  }

  /** Every entry is either kept or subscribed: the two lists split the scanned list. */
  lemma {:induction false} ScanPartitions(server: MBeanServer, names: seq<ObjectName>)
    ensures |StillPending(server, names)| + |Subscribed(server, names)| == |names|
    ensures multiset(StillPending(server, names)) + multiset(Subscribed(server, names)) == multiset(names)
    decreases |names|
  {
    if names != [] {
      var init, last := names[..|names| - 1], names[|names| - 1];
      ScanPartitions(server, init);
      assert names == init + [last];
      var kept, taken := StillPending(server, init), Subscribed(server, init);
      if Attaches(server, last) {
        assert StillPending(server, names) == kept;
        assert Subscribed(server, names) == taken + [last];
      } else {
        assert StillPending(server, names) == kept + [last];
        assert Subscribed(server, names) == taken;
      }
    }
  }

  /** A second scan against the same server state changes nothing. */
  lemma {:induction false} StillPendingIdempotent(server: MBeanServer, names: seq<ObjectName>)
    ensures StillPending(server, StillPending(server, names)) == StillPending(server, names)
    decreases |names|
  {
    if names != [] {
      var init, last := names[..|names| - 1], names[|names| - 1];
      StillPendingIdempotent(server, init);
      var p := StillPending(server, init);
      if Attaches(server, last) {
        assert StillPending(server, names) == p;
      } else {
        var q := p + [last];
        assert StillPending(server, names) == q;
        assert q[..|q| - 1] == p;
      }
    }
  }

  /** `registException`: walks the list once; an entry whose MBean is registered and
      accepts the listener is removed, every other entry stays. Returns the entries left
      and those subscribed. */
  method PruneSubscribed(server: MBeanServer, names: seq<ObjectName>) returns (pending: seq<ObjectName>, attached: seq<ObjectName>)
    ensures pending == StillPending(server, names)
    ensures attached == Subscribed(server, names)
  {
    pending, attached := [], [];
    var i := 0;
    while i < |names|
      invariant 0 <= i <= |names|
      invariant pending == StillPending(server, names[..i])
      invariant attached == Subscribed(server, names[..i])
    {
      var name := names[i];
      assert names[..i + 1][..i] == names[..i];
      if server.isRegistered(name) {
        if server.subscribeOk(name) {
          attached := attached + [name];
        } else {
          pending := pending + [name];
        }
      } else {
        pending := pending + [name];
      }
      i := i + 1;
    }
    assert names[..i] == names;
  }
}
