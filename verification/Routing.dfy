/**
 Which connection a device is routed to, with `Register` and `Close` split wherever the hub
 holds no lock. `Register` writes the map, closes the connection it supersedes, and writes the
 registry last; `Close` wins the closed flag, takes the device off the map, and then off the registry.
 */
module Routing {
  import opened Prelude

  type DeviceId = nat
  type ConnId = nat

  /** How far a call of `Register` has come after its write to the map. */
  datatype Phase =
    | Swapped(prev: Option<ConnId>)     // prev is still to be closed
    | Closing(won: ConnId)              // it won the close of prev and carries it out
    | Superseded                        // someone else won it

  datatype Route = Route(
    devices: map<DeviceId, ConnId>,     // Hub.devices
    registry: set<DeviceId>,            // keys of the registry
    registering: map<ConnId, Phase>,    // calls of Register before their registry write
    owner: map<ConnId, DeviceId>,       // every connection ever registered
    latest: map<DeviceId, ConnId>,      // history: the connection mapped last for each device
    closed: set<ConnId>,                // the closed flags
    unmapped: set<ConnId>,              // closes that are past the map
    deregistered: set<ConnId>)          // closes that are past the registry

  datatype Step =
    | RegisterSwap(c: ConnId, d: DeviceId)
    | RegisterClose(c: ConnId)
    | RegisterWrite(c: ConnId)
    | CloseBegin(c: ConnId)
    | CloseUnmap(c: ConnId)
    | CloseDeregister(c: ConnId)

  const START := Route(map[], {}, map[], map[], map[], {}, {}, {})

  /** The close it carries out itself comes first. */
  predicate MayWrite(s: Route, p: Phase) {
    match p
    case Swapped(prev) => prev.None?
    case Closing(won) => won in s.deregistered
    case Superseded => true
  }

  predicate Enabled(s: Route, a: Step) {
    match a
    case RegisterSwap(c, d) => c !in s.owner
    case RegisterClose(c) => c in s.registering && s.registering[c].Swapped? && s.registering[c].prev.Some?
    case RegisterWrite(c) =>
      c in s.registering && c in s.owner && MayWrite(s, s.registering[c])
    case CloseBegin(c) => c in s.owner && c !in s.closed
    case CloseUnmap(c) => c in s.owner && c in s.closed && c !in s.unmapped
    case CloseDeregister(c) => c in s.owner && c in s.unmapped && c !in s.deregistered
  }

  function Apply(s: Route, a: Step): Route {
    if !Enabled(s, a) then s
    else
      match a
      case RegisterSwap(c, d) =>
        var prev := if d in s.devices then Some(s.devices[d]) else None;
        s.(devices := s.devices[d := c], owner := s.owner[c := d], latest := s.latest[d := c],
           registering := s.registering[c := Swapped(prev)])
      case RegisterClose(c) =>
        var prev := s.registering[c].prev.value;
        if prev in s.closed then s.(registering := s.registering[c := Superseded])
        else s.(registering := s.registering[c := Closing(prev)], closed := s.closed + {prev})
      case RegisterWrite(c) => s.(registry := s.registry + {s.owner[c]}, registering := s.registering - {c})
      case CloseBegin(c) => s.(closed := s.closed + {c})
      case CloseUnmap(c) =>
        var d := s.owner[c];
        s.(devices := if d in s.devices && s.devices[d] == c then s.devices - {d} else s.devices,
           unmapped := s.unmapped + {c})
      case CloseDeregister(c) => s.(registry := s.registry - {s.owner[c]}, deregistered := s.deregistered + {c})
  }

  /** A disabled step leaves the state alone, so every sequence of steps is a run. */
  function Run(steps: seq<Step>): Route {
    if steps == [] then START else Apply(Run(steps[..|steps| - 1]), steps[|steps| - 1])
  }

  // ----- routing, under every interleaving

  ghost predicate Inv(s: Route) {
    && s.deregistered <= s.unmapped <= s.closed <= s.owner.Keys
    && s.registering.Keys <= s.owner.Keys
    && (forall d | d in s.latest :: s.latest[d] in s.owner && s.owner[s.latest[d]] == d)
    && (forall c | c in s.owner :: s.owner[c] in s.latest)
    && (forall d, c :: (d in s.devices && s.devices[d] == c) <==> RoutedByHistory(s, d, c))
    && (forall c | c in s.registering :: PhaseFits(s, c))
  }

  /** The connection a call of Register is to close, or has won, is an earlier one of the same device. */
  ghost predicate PhaseFits(s: Route, c: ConnId)
    requires c in s.registering
  {
    match s.registering[c]
    case Swapped(prev) => prev.None? || SameDevice(s, c, prev.value)
    case Closing(won) => SameDevice(s, c, won) && won in s.closed
    case Superseded => true
  }

  predicate SameDevice(s: Route, c: ConnId, p: ConnId) {
    c != p && c in s.owner && p in s.owner && s.owner[c] == s.owner[p]
  }

  /** c was mapped last for d and no close has taken it off the map. */
  predicate RoutedByHistory(s: Route, d: DeviceId, c: ConnId) {
    d in s.latest && s.latest[d] == c && c !in s.unmapped
  }

  predicate OfRegister(a: Step) {
    a.RegisterSwap? || a.RegisterClose? || a.RegisterWrite?
  }

  lemma SwapKeepsInv(s: Route, c: ConnId, e: DeviceId)
    requires Inv(s)
    ensures Inv(Apply(s, RegisterSwap(c, e)))
  {
    var s' := Apply(s, RegisterSwap(c, e));
    assert e in s.devices ==> RoutedByHistory(s, e, s.devices[e]);
    forall d, x ensures (d in s'.devices && s'.devices[d] == x) <==> RoutedByHistory(s', d, x) {
      assert (d in s.devices && s.devices[d] == x) <==> RoutedByHistory(s, d, x);
    }
    forall x | x in s'.registering ensures PhaseFits(s', x) {
      assert x in s.registering ==> PhaseFits(s, x);
    }
  }

  lemma RegisterKeepsInv(s: Route, a: Step)
    requires Inv(s) && (a.RegisterClose? || a.RegisterWrite?)
    ensures Inv(Apply(s, a))
  {
    var s' := Apply(s, a);
    forall d, x ensures (d in s'.devices && s'.devices[d] == x) <==> RoutedByHistory(s', d, x) {
      assert (d in s.devices && s.devices[d] == x) <==> RoutedByHistory(s, d, x);
    }
    forall x | x in s'.registering ensures PhaseFits(s', x) {
      assert x in s.registering ==> PhaseFits(s, x);
    }
  }

  lemma CloseKeepsInv(s: Route, a: Step)
    requires Inv(s) && !OfRegister(a)
    ensures Inv(Apply(s, a))
  {
    var s' := Apply(s, a);
    forall d, c ensures (d in s'.devices && s'.devices[d] == c) <==> RoutedByHistory(s', d, c) {
      assert (d in s.devices && s.devices[d] == c) <==> RoutedByHistory(s, d, c);
      assert d in s.latest ==> ((d in s.devices && s.devices[d] == s.latest[d])
                                <==> RoutedByHistory(s, d, s.latest[d]));
    }
    forall c | c in s'.registering ensures PhaseFits(s', c) {
      assert PhaseFits(s, c);
    }
  }

  lemma StepKeepsInv(s: Route, a: Step)
    requires Inv(s)
    ensures Inv(Apply(s, a))
  {
    if a.RegisterSwap? {
      SwapKeepsInv(s, a.c, a.d);
    } else if a.RegisterClose? || a.RegisterWrite? {
      RegisterKeepsInv(s, a);
    } else {
      CloseKeepsInv(s, a);
    }
  }

  lemma {:induction false} RunKeepsInv(steps: seq<Step>)
    ensures Inv(Run(steps))
  {
    if steps != [] {
      RunKeepsInv(steps[..|steps| - 1]);
      StepKeepsInv(Run(steps[..|steps| - 1]), steps[|steps| - 1]);
    }
  }

  /**
   In every run, however closes and registrations interleave, a device is routed to c
   exactly when c was mapped last for it and no close has unmapped it.
   */
  lemma RoutedToLatest(steps: seq<Step>, d: DeviceId, c: ConnId)
    ensures var s := Run(steps);
            (d in s.devices && s.devices[d] == c) <==> RoutedByHistory(s, d, c)
  {
    RunKeepsInv(steps);
  }

  /** Closing a connection that is not routed to takes no device off the map. */
  lemma SupersededCloseEvictsNobody(steps: seq<Step>, c: ConnId)
    requires forall d | d in Run(steps).devices :: Run(steps).devices[d] != c
    ensures Apply(Run(steps), CloseBegin(c)).devices == Run(steps).devices
    ensures Apply(Run(steps), CloseUnmap(c)).devices == Run(steps).devices
    ensures Apply(Run(steps), CloseDeregister(c)).devices == Run(steps).devices
  {
  }

  // ----- the registry beside the map

  predicate AgreesAt(s: Route, d: DeviceId) {
    d in s.registry <==> d in s.devices
  }

  /**
   For every step of every run, exactly when map and registry agree on d afterwards. Two steps part
   them for good: the late registry write of a registration whose device has been unmapped, and the
   late registry removal of a close whose device has been mapped again.
   */
  lemma RegistryAgreesIff(steps: seq<Step>, a: Step, d: DeviceId)
    requires Enabled(Run(steps), a)
    ensures var s := Run(steps);
            AgreesAt(Apply(s, a), d) <==>
              match a
              case RegisterSwap(c, e) => if e == d then d in s.registry else AgreesAt(s, d)
              case RegisterWrite(c) => if s.owner[c] == d then d in s.devices else AgreesAt(s, d)
              case CloseUnmap(c) =>
                if s.owner[c] == d && d in s.devices && s.devices[d] == c then d !in s.registry else AgreesAt(s, d)
              case CloseDeregister(c) => if s.owner[c] == d then d !in s.devices else AgreesAt(s, d)
              case _ => AgreesAt(s, d)
  {
  }

  /** No call on the device is under way. */
  ghost predicate Idle(s: Route, d: DeviceId) {
    && (forall c | c in s.registering && c in s.owner :: s.owner[c] != d)
    && (forall c | c in s.owner && s.owner[c] == d && c in s.closed :: c in s.deregistered)
  }

  /** The step is the first of a call of Register or Close on the device. */
  predicate Begins(s: Route, a: Step, d: DeviceId) {
    && Enabled(s, a)
    && ((a.RegisterSwap? && a.d == d) || (a.CloseBegin? && a.c in s.owner && s.owner[a.c] == d))
  }

  /** Calls on this device do not overlap; those on other devices may do as they like. */
  ghost predicate SerialFor(steps: seq<Step>, d: DeviceId) {
    steps != [] ==>
      var before, a := steps[..|steps| - 1], steps[|steps| - 1];
      SerialFor(before, d) && (Begins(Run(before), a, d) ==> Idle(Run(before), d))
  }

  predicate Owned(s: Route, c: ConnId, d: DeviceId) {
    c in s.owner && s.owner[c] == d
  }

  /** Every close on the device has ended, but for that of `except`. */
  ghost predicate ClosesEnded(s: Route, d: DeviceId, except: Option<ConnId>) {
    forall c: ConnId | Owned(s, c, d) && c in s.closed && Some(c) != except :: c in s.deregistered
  }

  /** Every connection of the device but the latest is closed, except perhaps `except`. */
  ghost predicate OldOnesClosed(s: Route, d: DeviceId, except: Option<ConnId>) {
    forall c: ConnId | Owned(s, c, d) && d in s.latest && c != s.latest[d] && Some(c) != except :: c in s.closed
  }

  /** The one call on the device that may be under way, and how far it is. */
  ghost predicate OneCall(s: Route, d: DeviceId) {
    if d !in s.latest then d !in s.registry
    else
      var c := s.latest[d];
      && (forall r | r in s.registering && Owned(s, r, d) :: r == c)
      && if c in s.registering then
           && c !in s.closed
           && match s.registering[c] {
                case Swapped(prev) => ClosesEnded(s, d, None) && OldOnesClosed(s, d, prev)
                  && (prev.Some? ==> prev.value !in s.closed)
                case Closing(won) => ClosesEnded(s, d, Some(won)) && OldOnesClosed(s, d, None)
                case Superseded => false
              }
         else
           && OldOnesClosed(s, d, None) && ClosesEnded(s, d, Some(c))
           && (c !in s.unmapped ==> d in s.registry)
           && (c in s.deregistered ==> d !in s.registry)
  }

  lemma SwapKeepsOneCall(s: Route, a: Step, d: DeviceId)
    requires Inv(s) && OneCall(s, d) && (Begins(s, a, d) ==> Idle(s, d)) && a.RegisterSwap?
    ensures OneCall(Apply(s, a), d)
  {
    assert d in s.devices ==> RoutedByHistory(s, d, s.devices[d]);
    assert d in s.latest ==> (RoutedByHistory(s, d, s.latest[d]) <==> s.latest[d] !in s.unmapped);
  }

  lemma RegisterKeepsOneCall(s: Route, a: Step, d: DeviceId)
    requires Inv(s) && OneCall(s, d) && (a.RegisterClose? || a.RegisterWrite?)
    ensures OneCall(Apply(s, a), d)
  {
    assert a.c in s.registering ==> PhaseFits(s, a.c);
  }

  lemma CloseKeepsOneCall(s: Route, a: Step, d: DeviceId)
    requires Inv(s) && OneCall(s, d) && (Begins(s, a, d) ==> Idle(s, d))
    requires !OfRegister(a)
    ensures OneCall(Apply(s, a), d)
  {
    assert d in s.latest && s.latest[d] in s.registering ==> PhaseFits(s, s.latest[d]);
  }

  /**
   When calls on a device do not overlap, then between them map and registry agree on it, it is
   routed to its latest connection exactly while that is open, and its other connections are closed.
   */
  lemma {:induction false} SerialCallsAgree(steps: seq<Step>, d: DeviceId)
    requires SerialFor(steps, d)
    ensures var s := Run(steps);
            && OneCall(s, d)
            && (Idle(s, d) ==>
                  && AgreesAt(s, d)
                  && (d in s.devices <==> d in s.latest && s.latest[d] !in s.closed)
                  && forall c | Owned(s, c, d) && c !in s.closed :: d in s.devices && s.devices[d] == c)
  {
    var s := Run(steps);
    RunKeepsInv(steps);
    if steps != [] {
      var before, a := steps[..|steps| - 1], steps[|steps| - 1];
      SerialCallsAgree(before, d);
      RunKeepsInv(before);
      if a.RegisterSwap? {
        SwapKeepsOneCall(Run(before), a, d);
      } else if OfRegister(a) {
        RegisterKeepsOneCall(Run(before), a, d);
      } else {
        CloseKeepsOneCall(Run(before), a, d);
      }
    }
    if Idle(s, d) {
      IdleAgrees(s, d);
    }
  }

  lemma IdleAgrees(s: Route, d: DeviceId)
    requires Inv(s) && OneCall(s, d) && Idle(s, d)
    ensures AgreesAt(s, d)
    ensures d in s.devices <==> d in s.latest && s.latest[d] !in s.closed
    ensures forall c | Owned(s, c, d) && c !in s.closed :: d in s.devices && s.devices[d] == c
  {
    assert d in s.devices ==> RoutedByHistory(s, d, s.devices[d]);
    if d in s.latest {
      assert RoutedByHistory(s, d, s.latest[d]) <==> s.latest[d] !in s.unmapped;
    }
  }

  lemma Unfold(steps: seq<Step>, a: Step)
    ensures Run(steps + [a]) == Apply(Run(steps), a)
  {
    assert (steps + [a])[..|steps|] == steps;
  }

  /** A connection superseded while its own close is under way: the device is routed to and not registered. */
  lemma LateUnregisterRace(d: DeviceId)
    ensures var s := Run([RegisterSwap(0, d)] + [RegisterWrite(0)] + [CloseBegin(0)] + [RegisterSwap(1, d)]
                         + [RegisterClose(1)]
                         + [RegisterWrite(1)] + [CloseUnmap(0)] + [CloseDeregister(0)]);
            s.devices == map[d := 1] && s.registry == {} && Idle(s, d)
  {
    var r1 := [RegisterSwap(0, d)];
    var r2 := r1 + [RegisterWrite(0)];
    var r3 := r2 + [CloseBegin(0)];
    var r4 := r3 + [RegisterSwap(1, d)];
    var r5 := r4 + [RegisterClose(1)];
    var r6 := r5 + [RegisterWrite(1)];
    var r7 := r6 + [CloseUnmap(0)];
    FirstRegistered(d);
    Unfold(r2, CloseBegin(0));
    Unfold(r3, RegisterSwap(1, d));
    Unfold(r4, RegisterClose(1));
    assert Run(r5) == Route(map[d := 1], {d}, map[1 := Superseded], map[0 := d, 1 := d], map[d := 1], {0}, {}, {});
    Unfold(r5, RegisterWrite(1));
    assert Run(r6) == Route(map[d := 1], {d}, map[], map[0 := d, 1 := d], map[d := 1], {0}, {}, {});
    Unfold(r6, CloseUnmap(0));
    Unfold(r7, CloseDeregister(0));
  }

  lemma FirstRegistered(d: DeviceId)
    ensures Run([RegisterSwap(0, d)])
            == Route(map[d := 0], {}, map[0 := Swapped(None)], map[0 := d], map[d := 0], {}, {}, {})
    ensures Run([RegisterSwap(0, d)] + [RegisterWrite(0)])
            == Route(map[d := 0], {d}, map[], map[0 := d], map[d := 0], {}, {}, {})
  {
    assert [RegisterSwap(0, d)][..0] == [] && Run([]) == START;
    Unfold([RegisterSwap(0, d)], RegisterWrite(0));
  }

  /**
   A registration suspended between its map write and its registry write, while its successor
   registers, closes it, and is closed: the device is registered and not routed to. Every close
   here runs to its end at once.
   */
  lemma LateRegisterRace(d: DeviceId)
    ensures var s := Run([RegisterSwap(0, d)] + [RegisterSwap(1, d)] + [RegisterClose(1)] + [CloseUnmap(0)]
                         + [CloseDeregister(0)]
                         + [RegisterWrite(1)] + [CloseBegin(1)] + [CloseUnmap(1)] + [CloseDeregister(1)]
                           + [RegisterWrite(0)]);
            s.devices == map[] && s.registry == {d} && Idle(s, d)
  {
    var r1 := [RegisterSwap(0, d)];
    var r2 := r1 + [RegisterSwap(1, d)];
    var r3 := r2 + [RegisterClose(1)];
    var r4 := r3 + [CloseUnmap(0)];
    var r5 := r4 + [CloseDeregister(0)];
    FirstRegistered(d);
    Unfold(r1, RegisterSwap(1, d));
    Unfold(r2, RegisterClose(1));
    assert Run(r3) == Route(map[d := 1], {}, map[0 := Swapped(None), 1 := Closing(0)], map[0 := d, 1 := d],
                            map[d := 1], {0}, {}, {});
    Unfold(r3, CloseUnmap(0));
    Unfold(r4, CloseDeregister(0));
    assert Run(r5) == Route(map[d := 1], {}, map[0 := Swapped(None), 1 := Closing(0)], map[0 := d, 1 := d],
                            map[d := 1], {0}, {0}, {0});
    SuccessorClosed(d, r5);
  }

  lemma SuccessorClosed(d: DeviceId, r5: seq<Step>)
    requires Run(r5) == Route(map[d := 1], {}, map[0 := Swapped(None), 1 := Closing(0)], map[0 := d, 1 := d],
                              map[d := 1], {0}, {0}, {0})
    ensures var s := Run(r5 + [RegisterWrite(1)] + [CloseBegin(1)] + [CloseUnmap(1)] + [CloseDeregister(1)]
                         + [RegisterWrite(0)]);
            s.devices == map[] && s.registry == {d} && Idle(s, d)
  {
    var r6 := r5 + [RegisterWrite(1)];
    var r7 := r6 + [CloseBegin(1)];
    var r8 := r7 + [CloseUnmap(1)];
    var r9 := r8 + [CloseDeregister(1)];
    Unfold(r5, RegisterWrite(1));
    Unfold(r6, CloseBegin(1));
    Unfold(r7, CloseUnmap(1));
    assert Run(r8) == Route(map[], {d}, map[0 := Swapped(None)], map[0 := d, 1 := d], map[d := 1], {0, 1}, {0, 1}, {0});
    Unfold(r8, CloseDeregister(1));
    Unfold(r9, RegisterWrite(0));
  }
}
