/**
 * The MiniCluster builder of the GKE bursting plugin (`get_minicluster`).
 *
 * From a command and about twenty optional settings it builds two
 * dictionaries: the MiniCluster custom-resource spec, which always points back
 * to the lead broker of the bursting Flux instance, and the container spec.
 * `Build` states the result declaratively; `GetMiniCluster` builds it the way
 * the plugin does, by updating local dictionaries step by step, and is proved
 * to agree with `Build`. The lemmas state what every result looks like.
 */
module Cluster {
  import opened Wrappers
  import opened PyInt
  import opened PyValue

  const DefaultFlags: string := "-ompi=openmpi@5 -c 1 -o cpu-affinity=per-task"
  const DefaultImage: string := "ghcr.io/flux-framework/flux-restful-api"
  const ConnectTimeout: string := "5s"
  const DefaultLogLevel: int := 7

  /** The arguments of `get_minicluster`; an argument left out is `Null` (Python's None). */
  datatype Args = Args(
    command: Value,
    size: Value,
    tasks: Value,
    cpuLimit: Value,
    memoryLimit: Value,
    flags: Value,
    name: Value,
    namespace: Value,
    image: Value,
    wrap: Value,
    logLevel: Value,
    fluxUser: Value,
    leadHost: Value,
    leadPort: Value,
    brokerToml: Value,
    mungeConfigMap: Value,
    leadSize: Value,
    leadJobname: Value,
    zeromq: Value,
    quiet: Value,
    strict: Value)

  /** A call that passes only the command: every other argument takes its declared default. */
  function Defaults(command: Value): (a: Args)
    ensures a.command == command && a.logLevel == Int(DefaultLogLevel)
    ensures a.leadPort == Null && a.leadSize == Null
  {
    Args(command, Null, Null, Null, Null, Null, Null, Null, Null, Null, Int(DefaultLogLevel),
         Null, Null, Null, Null, Null, Null, Null, Bool(false), Bool(false), Bool(false))
  }

  /** The pair `(mc, container)` that `get_minicluster` returns. */
  datatype Output = Output(minicluster: map<string, Value>, container: map<string, Value>)

  /** `v or d`: keeps a truthy argument, and with a non-empty default is never falsy. */
  function OrDefault(v: Value, d: string): (r: Value)
    ensures Truthy(v) ==> r == v
    ensures d != [] ==> Truthy(r)
  {
    if Truthy(v) then v else Str(d)
  }

  // ---------------------------------------------------------------------------
  // The result, stated declaratively: a fixed part, then one guarded key at a time.
  // ---------------------------------------------------------------------------

  /** `m` with the key `k` set to `v` when `guard` holds, and `m` unchanged otherwise. */
  function PutIf(guard: bool, m: map<string, Value>, k: string, v: Value): map<string, Value> {
    if guard then m[k := v] else m
  }

  /** Only the given dimensions (`is not None`) of a limits or requests map. */
  function Dimensions(cpu: Value, memory: Value): map<string, Value> {
    PutIf(memory != Null, PutIf(cpu != Null, map[], "cpu", cpu), "memory", memory)
  }

  /** A resources block whose limits and requests are the same map. */
  function Resources(dims: map<string, Value>): Value {
    Dict(map["limits" := Dict(dims), "requests" := Dict(dims)])
  }

  /** The keys of the container that every result has. */
  function BaseContainer(a: Args): map<string, Value> {
    map["image" := OrDefault(a.image, DefaultImage), "command" := a.command]
  }

  function ContainerSpec(a: Args): map<string, Value> {
    var limited := a.cpuLimit != Null || a.memoryLimit != Null;
    var withResources := PutIf(limited, BaseContainer(a), "resources", Resources(Dimensions(a.cpuLimit, a.memoryLimit)));
    PutIf(Truthy(a.fluxUser), withResources, "flux_user", Dict(map["name" := a.fluxUser]))
  }

  /** The back-reference to the lead broker, with its port and size already converted. */
  function LeadBroker(a: Args, port: int, size: int): Value {
    Dict(map["address" := a.leadHost, "port" := Int(port), "name" := a.leadJobname, "size" := Int(size)])
  }

  /** The keys of `mc["flux"]` that every result has. */
  function BaseFlux(a: Args, port: int, size: int): map<string, Value> {
    map["option_flags" := OrDefault(a.flags, DefaultFlags),
        "connect_timeout" := Str(ConnectTimeout),
        "log_level" := a.logLevel,
        "bursting" := Dict(map["lead_broker" := LeadBroker(a, port, size),
                               "clusters" := List([Dict(map["size" := a.size, "name" := a.name])])])]
  }

  /** `mc["flux"]` with its guarded keys: two tested for truthiness, `wrap` for `is not None`. */
  function FluxSpec(a: Args, port: int, size: int): map<string, Value> {
    var withMunge := PutIf(Truthy(a.mungeConfigMap), BaseFlux(a, port, size), "mungeConfigMap", a.mungeConfigMap);
    var withBroker := PutIf(Truthy(a.brokerToml), withMunge, "broker_config", a.brokerToml);
    PutIf(a.wrap != Null, withBroker, "wrap", a.wrap)
  }

  /** The top-level keys of `mc` other than `tasks`, with `flux` given. */
  function BaseMiniCluster(a: Args, flux: map<string, Value>): map<string, Value> {
    map["size" := a.size,
        "namespace" := a.namespace,
        "name" := a.name,
        "interactive" := Bool(false),
        "logging" := Dict(map["zeromq" := a.zeromq, "quiet" := a.quiet, "strict" := a.strict]),
        "flux" := Dict(flux)]
  }

  function MiniClusterSpec(a: Args, port: int, size: int): map<string, Value> {
    PutIf(a.tasks != Null, BaseMiniCluster(a, FluxSpec(a, port, size)), "tasks", a.tasks)
  }

  /** What `get_minicluster` returns, or the exception it raises (`int(lead_port)` is evaluated first). */
  function Build(a: Args): Result<Output, ConvError> {
    match ToInt(a.leadPort)
    case Failure(e) => Failure(e)
    case Success(port) =>
      match ToInt(a.leadSize)
      case Failure(e) => Failure(e)
      case Success(size) => Success(Output(MiniClusterSpec(a, port, size), ContainerSpec(a)))
  }

  // ---------------------------------------------------------------------------
  // When the call succeeds, and with what.
  // ---------------------------------------------------------------------------

  /**
   * The call succeeds exactly when both `int(lead_port)` and `int(lead_size)`
   * succeed, and then returns the two specs built from the converted values;
   * otherwise it raises the first conversion's exception.
   */
  lemma BuildOutcome(a: Args)
    ensures Build(a).Success? <==> ToInt(a.leadPort).Success? && ToInt(a.leadSize).Success?
    ensures Build(a).Success? ==>
      Build(a).value == Output(MiniClusterSpec(a, ToInt(a.leadPort).value, ToInt(a.leadSize).value), ContainerSpec(a))
    ensures ToInt(a.leadPort).Failure? ==> Build(a) == Failure(ToInt(a.leadPort).error)
    ensures ToInt(a.leadPort).Success? && ToInt(a.leadSize).Failure? ==> Build(a) == Failure(ToInt(a.leadSize).error)
  {
  }

  /** Called with the command alone, `lead_port` is None and `int(None)` raises TypeError. */
  lemma DefaultCallRaises(command: Value)
    ensures Build(Defaults(command)) == Failure(TypeError)
  {
  }

  /** A port (or, when the port converts, a size) holding a character no number contains raises ValueError. */
  lemma NonNumericLeadBroker(a: Args, i: nat)
    requires ToInt(a.leadPort).Success? ==> a.leadSize.Str? && i < |a.leadSize.s| && Foreign(a.leadSize.s[i])
    requires ToInt(a.leadPort).Failure? ==> a.leadPort.Str? && i < |a.leadPort.s| && Foreign(a.leadPort.s[i])
    ensures Build(a) == Failure(ValueError)
  {
    if ToInt(a.leadPort).Success? {
      ParseRejectsForeign(a.leadSize.s, i);
    } else {
      ParseRejectsForeign(a.leadPort.s, i);
    }
  }

  /** A character that is neither a digit, an underscore, a sign nor whitespace. */
  predicate Foreign(c: char) {
    !IsDigit(c) && c != '_' && c != '+' && c != '-' && !IsSpace(c)
  }

  /** Port and size given as decimal text, as the plugin's settings hold them, convert to those integers. */
  lemma TextualLeadBroker(a: Args, port: int, size: int)
    requires a.leadPort == Str(Show(port)) && a.leadSize == Str(Show(size))
    ensures Build(a) == Success(Output(MiniClusterSpec(a, port, size), ContainerSpec(a)))
  {
    ToIntOfShown(port);
    ToIntOfShown(size);
  }

  // ---------------------------------------------------------------------------
  // What every result looks like.
  // ---------------------------------------------------------------------------

  /** The back-reference to the lead broker is always there, and `clusters` repeats the top-level size and name. */
  lemma LeadBrokerBackReference(a: Args, port: int, size: int)
    ensures var mc := Some(Dict(MiniClusterSpec(a, port, size)));
      var bursting := Dot(Dot(mc, "flux"), "bursting");
      && Dot(bursting, "lead_broker")
         == Some(Dict(map["address" := a.leadHost, "port" := Int(port), "name" := a.leadJobname, "size" := Int(size)]))
      && Dot(mc, "size") == Some(a.size)
      && Dot(mc, "name") == Some(a.name)
      && Dot(bursting, "clusters") == Some(List([Dict(map["size" := a.size, "name" := a.name])]))
  {
  }

  /** The resources block is present exactly when a CPU or a memory limit is not None (0 included). */
  lemma ResourcesPresence(a: Args)
    ensures "resources" in ContainerSpec(a) <==> a.cpuLimit != Null || a.memoryLimit != Null
  {
  }

  /**
   * Limits and requests are the same map; each dimension holds its argument when
   * that is not None and is missing otherwise; nothing else is in them.
   */
  lemma LimitsEqualRequests(a: Args)
    ensures var res := Get(ContainerSpec(a), "resources");
      && Dot(res, "limits") == Dot(res, "requests")
      && Dot(Dot(res, "limits"), "cpu") == (if a.cpuLimit != Null then Some(a.cpuLimit) else None)
      && Dot(Dot(res, "limits"), "memory") == (if a.memoryLimit != Null then Some(a.memoryLimit) else None)
    ensures var res := Get(ContainerSpec(a), "resources");
      res.Some? ==>
        && res.value.Dict? && res.value.fields.Keys == {"limits", "requests"}
        && res.value.fields["limits"].Dict? && res.value.fields["limits"].fields.Keys <= {"cpu", "memory"}
  {
  }

  /** The container always carries the command and a truthy image, the default when the argument is falsy. */
  lemma ContainerImageAndCommand(a: Args)
    ensures var c := ContainerSpec(a);
      && Get(c, "command") == Some(a.command)
      && Get(c, "image") == Some(if Truthy(a.image) then a.image else Str(DefaultImage))
      && Truthy(c["image"])
      && c.Keys <= {"image", "command", "resources", "flux_user"}
  {
  }

  /** `flux_user` is present exactly when the argument is truthy, as `{"name": flux_user}`. */
  lemma FluxUserKey(a: Args)
    ensures Get(ContainerSpec(a), "flux_user")
         == if Truthy(a.fluxUser) then Some(Dict(map["name" := a.fluxUser])) else None
  {
  }

  /** Each optional key appears only under its own guard: `is not None` for tasks and wrap, truthiness otherwise. */
  lemma OptionalKeys(a: Args, port: int, size: int)
    ensures Get(MiniClusterSpec(a, port, size), "tasks") == if a.tasks != Null then Some(a.tasks) else None
    ensures var flux := Dot(Some(Dict(MiniClusterSpec(a, port, size))), "flux");
      && Dot(flux, "mungeConfigMap") == (if Truthy(a.mungeConfigMap) then Some(a.mungeConfigMap) else None)
      && Dot(flux, "broker_config") == (if Truthy(a.brokerToml) then Some(a.brokerToml) else None)
      && Dot(flux, "wrap") == (if a.wrap != Null then Some(a.wrap) else None)
  {
  }

  /**
   * The two kinds of guard differ on empty values: an empty `wrap` and a zero
   * `tasks` are emitted, an empty broker config, config map or user are not.
   */
  lemma EmptyValuesUnderGuards(a: Args, port: int, size: int)
    requires a.wrap == Str("") && a.tasks == Int(0)
    requires a.brokerToml == Str("") && a.mungeConfigMap == Str("") && a.fluxUser == Str("")
    ensures var flux := Dot(Some(Dict(MiniClusterSpec(a, port, size))), "flux");
      && Dot(flux, "wrap") == Some(Str(""))
      && Get(MiniClusterSpec(a, port, size), "tasks") == Some(Int(0))
      && Dot(flux, "broker_config") == None
      && Dot(flux, "mungeConfigMap") == None
      && "flux_user" !in ContainerSpec(a)
  {
    OptionalKeys(a, port, size);
    FluxUserKey(a);
  }

  /** Constant and copied fields: not interactive, a 5s connect timeout, log level and logging switches as given. */
  lemma FixedFields(a: Args, port: int, size: int)
    ensures var mc := Some(Dict(MiniClusterSpec(a, port, size)));
      var flux := Dot(mc, "flux");
      && Dot(mc, "interactive") == Some(Bool(false))
      && Dot(mc, "namespace") == Some(a.namespace)
      && Dot(mc, "logging") == Some(Dict(map["zeromq" := a.zeromq, "quiet" := a.quiet, "strict" := a.strict]))
      && Dot(flux, "connect_timeout") == Some(Str(ConnectTimeout))
      && Dot(flux, "log_level") == Some(a.logLevel)
      && Dot(flux, "option_flags") == Some(if Truthy(a.flags) then a.flags else Str(DefaultFlags))
      && Truthy(Dot(flux, "option_flags").value)
  {
  }

  /** No keys beyond the listed ones; size, namespace and name are always there, even when None. */
  lemma KeySets(a: Args, port: int, size: int)
    ensures MiniClusterSpec(a, port, size).Keys
         == {"size", "namespace", "name", "interactive", "logging", "flux"} + (if a.tasks != Null then {"tasks"} else {})
    ensures var flux := Dot(Some(Dict(MiniClusterSpec(a, port, size))), "flux");
      && flux.Some? && flux.value.Dict?
      && {"option_flags", "connect_timeout", "log_level", "bursting"} <= flux.value.fields.Keys
      && flux.value.fields.Keys
         <= {"option_flags", "connect_timeout", "log_level", "bursting", "mungeConfigMap", "broker_config", "wrap"}
    ensures var bursting := Dot(Dot(Some(Dict(MiniClusterSpec(a, port, size))), "flux"), "bursting");
      bursting.Some? && bursting.value.Dict? && bursting.value.fields.Keys == {"lead_broker", "clusters"}
  {
  }

  // ---------------------------------------------------------------------------
  // The builder as the plugin runs it: local dictionaries updated in place.
  // ---------------------------------------------------------------------------

  /** `d[dim] = x` on both the limits and the requests of a resources block. */
  lemma SetDimension(base: map<string, Value>, dims: map<string, Value>, dim: string, x: Value)
    ensures var c := base["resources" := Resources(dims)];
      Assign3(Assign3(c, "resources", "limits", dim, x), "resources", "requests", dim, x)
      == base["resources" := Resources(dims[dim := x])]
  {
    var c := base["resources" := Resources(dims)];
    var once := Assign3(c, "resources", "limits", dim, x);
    var res := Dict(map["limits" := Dict(dims[dim := x]), "requests" := Dict(dims)]);
    assert once["resources"].fields == res.fields;
    assert once == c["resources" := res];
    var twice := Assign3(once, "resources", "requests", dim, x);
    assert twice["resources"].fields == Resources(dims[dim := x]).fields;
  }

  /** `mc["flux"][k] = x` adds one key to the flux part and leaves the rest of `mc` alone. */
  lemma SetFluxKey(a: Args, flux: map<string, Value>, k: string, x: Value)
    ensures Assign2(PutIf(a.tasks != Null, BaseMiniCluster(a, flux), "tasks", a.tasks), "flux", k, x)
         == PutIf(a.tasks != Null, BaseMiniCluster(a, flux[k := x]), "tasks", a.tasks)
  {
  }

  /** The container dictionary: resources removed or filled in one dimension at a time, then the user. */
  method NewContainer(a: Args, image: Value) returns (container: map<string, Value>)
    requires image == OrDefault(a.image, DefaultImage)
    ensures container == ContainerSpec(a)
  {
    container := map["image" := image, "command" := a.command, "resources" := Dict(map[])];
    if a.cpuLimit == Null && a.memoryLimit == Null {
      container := container - {"resources"};
      assert container == BaseContainer(a);
    } else if a.cpuLimit != Null || a.memoryLimit != Null {
      container := container["resources" := Dict(map["limits" := Dict(map[]), "requests" := Dict(map[])])];
      ghost var dims: map<string, Value> := map[];
      assert container == BaseContainer(a)["resources" := Resources(dims)];
      if a.cpuLimit != Null {
        SetDimension(BaseContainer(a), dims, "cpu", a.cpuLimit);
        container := Assign3(container, "resources", "limits", "cpu", a.cpuLimit);
        container := Assign3(container, "resources", "requests", "cpu", a.cpuLimit);
      }
      dims := PutIf(a.cpuLimit != Null, dims, "cpu", a.cpuLimit);
      if a.memoryLimit != Null {
        SetDimension(BaseContainer(a), dims, "memory", a.memoryLimit);
        container := Assign3(container, "resources", "limits", "memory", a.memoryLimit);
        container := Assign3(container, "resources", "requests", "memory", a.memoryLimit);
      }
      dims := PutIf(a.memoryLimit != Null, dims, "memory", a.memoryLimit);
    }
    if Truthy(a.fluxUser) {
      container := container["flux_user" := Dict(map["name" := a.fluxUser])];
    }
  }

  /** The MiniCluster dictionary: the literal with the lead-broker back-reference, then the guarded keys. */
  method NewMiniCluster(a: Args, flags: Value, port: int, size: int) returns (mc: map<string, Value>)
    requires flags == OrDefault(a.flags, DefaultFlags)
    ensures mc == MiniClusterSpec(a, port, size)
  {
    mc := map[
      "size" := a.size,
      "namespace" := a.namespace,
      "name" := a.name,
      "interactive" := Bool(false),
      "logging" := Dict(map["zeromq" := a.zeromq, "quiet" := a.quiet, "strict" := a.strict]),
      "flux" := Dict(map[
        "option_flags" := flags,
        "connect_timeout" := Str(ConnectTimeout),
        "log_level" := a.logLevel,
        "bursting" := Dict(map[
          "lead_broker" := Dict(map[
            "address" := a.leadHost,
            "port" := Int(port),
            "name" := a.leadJobname,
            "size" := Int(size)]),
          "clusters" := List([Dict(map["size" := a.size, "name" := a.name])])])])];
    ghost var flux := BaseFlux(a, port, size);
    assert mc == BaseMiniCluster(a, flux);

    if a.tasks != Null {
      mc := mc["tasks" := a.tasks];
    }
    if Truthy(a.mungeConfigMap) {
      SetFluxKey(a, flux, "mungeConfigMap", a.mungeConfigMap);
      mc := Assign2(mc, "flux", "mungeConfigMap", a.mungeConfigMap);
    }
    flux := PutIf(Truthy(a.mungeConfigMap), flux, "mungeConfigMap", a.mungeConfigMap);
    if Truthy(a.brokerToml) {
      SetFluxKey(a, flux, "broker_config", a.brokerToml);
      mc := Assign2(mc, "flux", "broker_config", a.brokerToml);
    }
    flux := PutIf(Truthy(a.brokerToml), flux, "broker_config", a.brokerToml);
    if a.wrap != Null {
      SetFluxKey(a, flux, "wrap", a.wrap);
      mc := Assign2(mc, "flux", "wrap", a.wrap);
    }
    flux := PutIf(a.wrap != Null, flux, "wrap", a.wrap);
  }

  /** `get_minicluster`: the two specs, or the exception one of the integer conversions raises. */
  method GetMiniCluster(a: Args) returns (r: Result<Output, ConvError>)
    ensures r == Build(a)
  {
    var flags := if Truthy(a.flags) then a.flags else Str(DefaultFlags);
    var image := if Truthy(a.image) then a.image else Str(DefaultImage);
    var container := NewContainer(a, image);
    var port := ToInt(a.leadPort);
    if port.Failure? {
      return Failure(port.error);
    }
    var size := ToInt(a.leadSize);
    if size.Failure? {
      return Failure(size.error);
    }
    var mc := NewMiniCluster(a, flags, port.value, size.value);
    r := Success(Output(mc, container));
  }
}
