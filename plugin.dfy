/** pkg/plugin/registry.go and pkg/plugin/builder.go: the registry of plugin
    builders keyed by package id, and the manager that builds configured
    plugins lazily and memoises them by name. */
module Plugin {
  import opened Common
  import opened Capability
  import Strings

  /** config.Plugin (config.Client): a configured plugin entry. */
  datatype PluginConfig = PluginConfig(name: string, package: string, options: map<string, string>)

  /** What a built plugin is: its Name() and which capability interfaces it
      also implements (Go's type assertions inst.(rotate.Storage) and so on). */
  datatype InstanceSpec = InstanceSpec(
    name: string,
    storage: Option<StorageFacet>,
    rotation: Option<RotationFacet>,
    disable: Option<DisableFacet>)

  /** plugin.Builder: construction of an instance from its configuration,
      which may fail with a message. */
  datatype Builder = Builder(build: PluginConfig -> Result<InstanceSpec, string>)

  /** A constructed plugin. Being an object, two instances are the same only
      when they are the same allocation, as with Go pointers. */
  class Instance {
    const spec: InstanceSpec

    constructor (spec: InstanceSpec)
      ensures this.spec == spec
    {
      this.spec := spec;
    }
  }

  datatype BuildError = NoPluginFound(package: string) | BuilderFailed(message: string)

  datatype Registration = Registered | DuplicateRegistration(package: string)

  /** The process-wide registry, made an explicit object. */
  class Registry {
    var builders: map<string, Builder>

    constructor ()
      ensures builders == map[]
    {
      builders := map[];
    }

    /** Register: adds the builder under `pkg`. Registering a package id that
        is already present is a fatal error (a panic in Go) and changes
        nothing. */
    method Register(pkg: string, b: Builder) returns (r: Registration)
      modifies this
      ensures r.DuplicateRegistration? <==> pkg in old(builders)
      ensures r.DuplicateRegistration? ==> r.package == pkg
      ensures r.Registered? ==> builders == old(builders)[pkg := b]
      ensures r.DuplicateRegistration? ==> builders == old(builders)
    {
      if pkg in builders {
        return DuplicateRegistration(pkg);
      }
      builders := builders[pkg := b];
      return Registered;
    }

    /** Get: the builder registered for `pkg`, or nothing. */
    function Get(pkg: string): (r: Option<Builder>)
      reads this
      ensures r.Some? <==> pkg in builders
      ensures r.Some? ==> r.value == builders[pkg]
    {
      if pkg in builders then Some(builders[pkg]) else None
    }

    /** What Build yields for `c`, without the allocation. */
    ghost function Outcome(c: PluginConfig): Result<InstanceSpec, BuildError>
      reads this
    {
      match Get(c.package)
      case None => Err(NoPluginFound(c.package))
      case Some(b) =>
        match b.build(c)
        case Ok(spec) => Ok(spec)
        case Err(m) => Err(BuilderFailed(m))
    }

    /** Build: constructs a fresh instance with the builder registered for the
        configuration's package, or reports that there is none, or passes the
        builder's error on. */
    method Build(c: PluginConfig) returns (r: Result<Instance, BuildError>)
      ensures c.package !in builders ==> r == Err(NoPluginFound(c.package))
      ensures c.package in builders ==>
        match builders[c.package].build(c)
        case Ok(spec) => r.Ok? && fresh(r.value) && r.value.spec == spec
        case Err(m) => r == Err(BuilderFailed(m))
      ensures r.Ok? <==> Outcome(c).Ok?
      ensures r.Ok? ==> r.value.spec == Outcome(c).value
      ensures r.Err? ==> r.error == Outcome(c).error
    {
      var p := Get(c.package);
      if p.None? {
        return Err(NoPluginFound(c.package));
      }
      var built := p.value.build(c);
      match built
      case Ok(spec) =>
        var inst := new Instance(spec);
        return Ok(inst);
      case Err(m) =>
        return Err(BuilderFailed(m));
    }
  }

  datatype InstanceError =
    | ConfigNotFound(name: string)
    | BuildFailed(name: string, package: string, cause: BuildError)

  /** plugin.Manager: configured plugins (keyed by lower-cased name) and the
      cache of instances built so far (keyed by the name as asked for). */
  class Manager {
    const registry: Registry
    const clients: map<string, PluginConfig>
    var cache: map<string, Instance>

    /** NewManager starts with no instance built. */
    constructor (registry: Registry, clients: map<string, PluginConfig>)
      ensures this.registry == registry && this.clients == clients
      ensures cache == map[]
    {
      this.registry := registry;
      this.clients := clients;
      cache := map[];
    }

    /** What Instance(name) yields in the current state, up to allocation. */
    ghost function Resolve(name: string): Result<InstanceSpec, InstanceError>
      reads this, registry
    {
      if name in cache then Ok(cache[name].spec)
      else if Strings.Lower(name) !in clients then Err(ConfigNotFound(name))
      else
        var c := clients[Strings.Lower(name)];
        match registry.Outcome(c)
        case Ok(spec) => Ok(spec)
        case Err(e) => Err(BuildFailed(name, c.package, e))
    }

    /** Instance: the cached instance for `name` if there is one; otherwise
        the configuration found under the lower-cased name is built and, only
        on success, cached under `name` as given. Every name resolves
        afterwards exactly as it did before. */
    method Instance(name: string) returns (r: Result<Instance, InstanceError>)
      modifies this
      ensures name in old(cache) ==> r == Ok(old(cache)[name]) && cache == old(cache)
      ensures name !in old(cache) && Strings.Lower(name) !in clients ==>
        r == Err(ConfigNotFound(name)) && cache == old(cache)
      ensures name !in old(cache) && Strings.Lower(name) in clients ==>
        var c := clients[Strings.Lower(name)];
        match old(registry.Outcome(c))
        case Ok(spec) => r.Ok? && fresh(r.value) && r.value.spec == spec && cache == old(cache)[name := r.value]
        case Err(e) => r == Err(BuildFailed(name, c.package, e)) && cache == old(cache)
      ensures r.Ok? <==> old(Resolve(name)).Ok?
      ensures r.Ok? ==> r.value.spec == old(Resolve(name)).value && name in cache && cache[name] == r.value
      ensures r.Err? ==> r.error == old(Resolve(name)).error && cache == old(cache)
      ensures forall n :: Resolve(n) == old(Resolve(n))
    {
      if name in cache {
        return Ok(cache[name]);
      }
      var lcname := Strings.Lower(name);
      if lcname !in clients {
        return Err(ConfigNotFound(name));
      }
      var c := clients[lcname];
      var built := registry.Build(c);
      if built.Err? {
        return Err(BuildFailed(name, c.package, built.error));
      }
      var inst := built.value;
      cache := cache[name := inst];
      return Ok(inst);
    }
  }

  const ErrorPackage := "builder_test/error"
  const NopPackage := "builder_test/nop"
  const NopSpec := InstanceSpec("nop", None, None, None)

  function FailingBuild(c: PluginConfig): Result<InstanceSpec, string> { Err("bad stuff") }
  function NopBuild(c: PluginConfig): Result<InstanceSpec, string> { Ok(NopSpec) }

  /** The two builders builder_test.go registers. */
  method TestRegistry() returns (reg: Registry)
    ensures fresh(reg)
    ensures reg.builders == map[ErrorPackage := Builder(FailingBuild), NopPackage := Builder(NopBuild)]
  {
    reg := new Registry();
    var r1 := reg.Register(ErrorPackage, Builder(FailingBuild));
    assert ErrorPackage[13] != NopPackage[13];
    var r2 := reg.Register(NopPackage, Builder(NopBuild));
  }

  /** A second registration of a package id is refused, and Build of an
      unknown package reports that no plugin was found. */
  method RegistryScenario()
  {
    var reg := TestRegistry();
    var again := reg.Register(NopPackage, Builder(NopBuild));
    assert again == DuplicateRegistration(NopPackage);
    var none := reg.Build(PluginConfig("foo", "builder_test/nope", map[]));
    assert |"builder_test/nope"| != |NopPackage| && |"builder_test/nope"| != |ErrorPackage|;
    assert none == Err(NoPluginFound("builder_test/nope"));
  }

  /** A name with no configuration is reported as not found. */
  method MissingScenario()
  {
    var reg := TestRegistry();
    var m := new Manager(reg, map[]);
    var missing := m.Instance("nope");
    assert missing == Err(ConfigNotFound("nope"));
  }

  /** A failing builder is not cached, so asking again fails again. */
  method FailingScenario()
  {
    var reg := TestRegistry();
    var m := new Manager(reg, map["error" := PluginConfig("error", ErrorPackage, map[])]);
    assert Strings.Lower("error") == "error";
    var bad := m.Instance("error");
    assert bad == Err(BuildFailed("error", ErrorPackage, BuilderFailed("bad stuff")));
    assert m.cache == map[];
    var bad2 := m.Instance("error");
    assert bad2 == bad;
  }

  /** The second retrieval of a name is the identical instance; "Nop" finds
      the same configuration as "nop" but is cached as a different instance. */
  method SameInstanceScenario()
  {
    var reg := TestRegistry();
    var m := new Manager(reg, map["nop" := PluginConfig("nop", NopPackage, map[])]);
    assert Strings.Lower("nop") == "nop";
    var i1 := m.Instance("nop");
    assert i1.Ok? && i1.value.spec.name == "nop";
    var i2 := m.Instance("nop");
    assert i2 == i1;
    assert Strings.Lower("Nop") == "nop";
    var i3 := m.Instance("Nop");
    assert i3.Ok? && i3.value != i1.value && i3.value.spec == i1.value.spec;
  }
}
