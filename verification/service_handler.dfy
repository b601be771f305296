/**
 * The service handler: every service class is registered in the
 * dependency-injection container under a name derived from its class name,
 * then each is resolved and initialized in list order; shutdown visits them
 * in the same order. The container is modelled by its registrations and by
 * the calls made on it; whether resolving and initializing (or shutting
 * down) the i-th service succeeds is an input.
 */
module ServiceLifecycle {
  import opened Strings

  datatype ServiceClass = ServiceClass(name: string)

  /** A call on the container or on a resolved service, with the DI name it used. */
  datatype ContainerCall = Register(diName: string, service: ServiceClass) | Init(diName: string) | Shutdown(diName: string)

  /** The DI name of a service: its class name with the first character lower-cased. */
  function DiName(s: ServiceClass): string {
    LowerFirst(s.name)
  }

  /** Lower-casing the first character again changes nothing. */
  lemma {:induction false} DiNameIdempotent(s: ServiceClass)
    ensures LowerFirst(DiName(s)) == DiName(s)
  {
    if |s.name| > 0 {
      var d := DiName(s);
      assert d == [d[0]] + d[1..];
      assert LowerFirst(d) == [AsciiLower(d[0])] + d[1..];
    }
  }

  /**
   * The DI name has the class name's length, its first character is not an
   * upper-case letter, and a class name that does not start with one is its
   * own DI name.
   */
  lemma {:induction false} DiNameShape(s: ServiceClass)
    ensures |DiName(s)| == |s.name|
    ensures |s.name| > 0 ==> !IsAsciiUpper(DiName(s)[0]) && DiName(s)[1..] == s.name[1..]
    ensures |s.name| == 0 || !IsAsciiUpper(s.name[0]) ==> DiName(s) == s.name
  {
    if |s.name| > 0 && !IsAsciiUpper(s.name[0]) {
      assert s.name == [s.name[0]] + s.name[1..];
    }
  }

  /** The registrations, one per service, in list order. */
  function Registrations(services: seq<ServiceClass>): (r: seq<ContainerCall>)
    ensures |r| == |services|
  {
    seq(|services|, i requires 0 <= i < |services| => Register(DiName(services[i]), services[i]))
  }

  /** The initializations, one per service, in list order. */
  function Inits(services: seq<ServiceClass>): (r: seq<ContainerCall>)
    ensures |r| == |services|
  {
    seq(|services|, i requires 0 <= i < |services| => Init(DiName(services[i])))
  }

  /** The shutdowns, one per service, in list order. */
  function Shutdowns(services: seq<ServiceClass>): (r: seq<ContainerCall>)
    ensures |r| == |services|
  {
    seq(|services|, i requires 0 <= i < |services| => Shutdown(DiName(services[i])))
  }

  /** The container's registrations after registering `services` in order. */
  function Registry(registry: map<string, ServiceClass>, services: seq<ServiceClass>): map<string, ServiceClass>
    decreases |services|
  {
    if |services| == 0 then registry
    else var s := services[|services| - 1];
      Registry(registry, services[..|services| - 1])[DiName(s) := s]
  }

  /**
   * The names of the services whose step failed, in list order; `ok(i)`
   * says whether the i-th succeeded.
   */
  function FailedNames(services: seq<ServiceClass>, ok: nat -> bool): (r: seq<string>)
    decreases |services|
    ensures |r| <= |services|
    ensures forall name :: name in r <==> exists i :: 0 <= i < |services| && !ok(i) && services[i].name == name
  {
    if |services| == 0 then []
    else
      var last := |services| - 1;
      var r := FailedNames(services[..last], ok) + (if ok(last) then [] else [services[last].name]);
      assert forall i :: 0 <= i < last ==> services[..last][i] == services[i];
      r
  }

  /** What loading writes to the container: every registration, then every initialization. */
  function LoadCalls(services: seq<ServiceClass>): seq<ContainerCall> {
    if |services| == 0 then [] else Registrations(services) + Inits(services)
  }

  /**
   * All services are registered before any is initialized; the i-th
   * registration and the i-th initialization are those of the i-th service,
   * under the same DI name; and every service is initialized, whatever
   * happened to the others.
   */
  lemma {:induction false} RegisterBeforeInit(services: seq<ServiceClass>)
    ensures |LoadCalls(services)| == 2 * |services|
    ensures forall i, j ::
      (0 <= i < |LoadCalls(services)| && 0 <= j < |LoadCalls(services)|
       && LoadCalls(services)[i].Register? && LoadCalls(services)[j].Init?) ==> i < j
    ensures forall k :: 0 <= k < |services| ==>
      LoadCalls(services)[k] == Register(DiName(services[k]), services[k])
      && LoadCalls(services)[|services| + k] == Init(DiName(services[k]))
  {
    if |services| > 0 {
      var calls := LoadCalls(services);
      var n := |services|;
      assert forall k :: 0 <= k < n ==> calls[k] == Registrations(services)[k] && calls[n + k] == Inits(services)[k];
    }
  }

  /** Shutdown visits the services in the order they were initialized, with the same DI names. */
  lemma {:induction false} ShutdownMirrorsInit(services: seq<ServiceClass>)
    requires |services| > 0
    ensures forall k :: 0 <= k < |services| ==>
      Shutdowns(services)[k].diName == LoadCalls(services)[|services| + k].diName
  {
    RegisterBeforeInit(services);
  }

  /**
   * The last registration under a DI name wins: the class registered under a
   * service's DI name is that service when no later one shares its DI name.
   */
  lemma {:induction false} RegistryResolves(registry: map<string, ServiceClass>, services: seq<ServiceClass>, i: int)
    requires 0 <= i < |services|
    requires forall j :: i < j < |services| ==> DiName(services[j]) != DiName(services[i])
    ensures DiName(services[i]) in Registry(registry, services)
    ensures Registry(registry, services)[DiName(services[i])] == services[i]
    decreases |services|
  {
    var last := |services| - 1;
    if i < last {
      assert services[..last][i] == services[i];
      forall j | i < j < last
        ensures DiName(services[..last][j]) != DiName(services[..last][i])
      {
        assert services[..last][j] == services[j];
      }
      RegistryResolves(registry, services[..last], i);
    }
  }

  /** With distinct DI names, each service resolves to its own class. */
  lemma {:induction false} DistinctNamesResolve(registry: map<string, ServiceClass>, services: seq<ServiceClass>)
    requires forall i, j :: 0 <= i < j < |services| ==> DiName(services[i]) != DiName(services[j])
    ensures forall i :: 0 <= i < |services| ==>
      DiName(services[i]) in Registry(registry, services) && Registry(registry, services)[DiName(services[i])] == services[i]
  {
    forall i | 0 <= i < |services|
      ensures DiName(services[i]) in Registry(registry, services)
      ensures Registry(registry, services)[DiName(services[i])] == services[i]
    {
      RegistryResolves(registry, services, i);
    }
  }

  /** One more service adds its registration, initialization and shutdown at the end of each list. */
  lemma {:induction false} CallsStep(services: seq<ServiceClass>, i: nat)
    requires i < |services|
    ensures Registrations(services[..i + 1]) == Registrations(services[..i]) + [Register(DiName(services[i]), services[i])]
    ensures Inits(services[..i + 1]) == Inits(services[..i]) + [Init(DiName(services[i]))]
    ensures Shutdowns(services[..i + 1]) == Shutdowns(services[..i]) + [Shutdown(DiName(services[i]))]
  {
    assert services[..i + 1][..i] == services[..i];
  }

  /** One more service adds its name to the failures exactly when its step fails. */
  lemma {:induction false} FailedNamesStep(services: seq<ServiceClass>, ok: nat -> bool, i: nat)
    requires i < |services|
    ensures FailedNames(services[..i + 1], ok) == FailedNames(services[..i], ok) + (if ok(i) then [] else [services[i].name])
  {
    assert services[..i + 1][..i] == services[..i];
  }

  class ServiceHandler {
    /** The container's registrations, by DI name. */
    var registry: map<string, ServiceClass>
    /** The calls made so far, in order. */
    var calls: seq<ContainerCall>
    /** The names of the services whose initialization or shutdown failed and was reported, in order. */
    var failures: seq<string>
    /** How many times an empty service list was reported. */
    var warnings: nat

    constructor(registry: map<string, ServiceClass>)
      ensures this.registry == registry && calls == [] && failures == [] && warnings == 0
    {
      this.registry := registry;
      calls, failures, warnings := [], [], 0;
    }

    /**
     * `loadServices`: an empty list is reported and nothing else happens;
     * otherwise every service is registered, then every service is resolved
     * and initialized, a failure being reported without stopping the loop.
     */
    method LoadServices(services: seq<ServiceClass>, initOk: nat -> bool)
      modifies this
      ensures |services| == 0 ==>
        registry == old(registry) && calls == old(calls) && failures == old(failures) && warnings == old(warnings) + 1
      ensures |services| > 0 ==> registry == Registry(old(registry), services) && warnings == old(warnings)
      ensures calls == old(calls) + LoadCalls(services)
      ensures failures == old(failures) + (if |services| == 0 then [] else FailedNames(services, initOk))
    {
      if |services| == 0 {
        warnings := warnings + 1;
        return;
      }
      RegisterAll(services);
      InitAll(services, initOk);
    }

    /** The registration loop: each service under its DI name, in list order. */
    method RegisterAll(services: seq<ServiceClass>)
      modifies this
      ensures registry == Registry(old(registry), services)
      ensures calls == old(calls) + Registrations(services)
      ensures failures == old(failures) && warnings == old(warnings)
    {
      var i := 0;
      while i < |services|
        invariant 0 <= i <= |services|
        invariant registry == Registry(old(registry), services[..i])
        invariant calls == old(calls) + Registrations(services[..i])
        invariant failures == old(failures) && warnings == old(warnings)
      {
        var diName := DiName(services[i]);
        CallsStep(services, i);
        assert services[..i + 1][..i] == services[..i];
        registry := registry[diName := services[i]];
        calls := calls + [Register(diName, services[i])];
        i := i + 1;
      }
      assert services[..i] == services;
    }

    /** The initialization loop: each service resolved and initialized in list order, failures reported. */
    method InitAll(services: seq<ServiceClass>, initOk: nat -> bool)
      modifies this
      ensures registry == old(registry) && warnings == old(warnings)
      ensures calls == old(calls) + Inits(services)
      ensures failures == old(failures) + FailedNames(services, initOk)
    {
      var i := 0;
      while i < |services|
        invariant 0 <= i <= |services|
        invariant registry == old(registry) && warnings == old(warnings)
        invariant calls == old(calls) + Inits(services[..i])
        invariant failures == old(failures) + FailedNames(services[..i], initOk)
      {
        var diName := DiName(services[i]);
        CallsStep(services, i);
        FailedNamesStep(services, initOk, i);
        calls := calls + [Init(diName)];
        if !initOk(i) {
          failures := failures + [services[i].name];
        }
        i := i + 1;
      }
      assert services[..i] == services;
    }

    /**
     * `shutdownServices`: every service is resolved and shut down in list
     * order; a failure is reported without stopping the loop.
     */
    method ShutdownServices(services: seq<ServiceClass>, shutdownOk: nat -> bool)
      modifies this
      ensures registry == old(registry) && warnings == old(warnings)
      ensures calls == old(calls) + Shutdowns(services)
      ensures failures == old(failures) + FailedNames(services, shutdownOk)
    {
      var i := 0;
      while i < |services|
        invariant 0 <= i <= |services|
        invariant registry == old(registry) && warnings == old(warnings)
        invariant calls == old(calls) + Shutdowns(services[..i])
        invariant failures == old(failures) + FailedNames(services[..i], shutdownOk)
      {
        var diName := DiName(services[i]);
        CallsStep(services, i);
        FailedNamesStep(services, shutdownOk, i);
        calls := calls + [Shutdown(diName)];
        if !shutdownOk(i) {
          failures := failures + [services[i].name];
        }
        i := i + 1;
      }
      assert services[..i] == services;
    }
  }
}
