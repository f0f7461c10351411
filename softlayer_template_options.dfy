/**
 * SoftLayerTemplateOptions: the SoftLayer flavour of the compute template
 * options. It adds one field, the domain name used when ordering virtual
 * guests, to the generic TemplateOptions, whose own fields (ports, scripts,
 * keys, metadata) are represented here only by the mutator calls they have
 * received.
 *
 * The module has two layers. The first describes an object's fields as a
 * value (Snapshot) and each operation as a function on that value; the
 * lemmas about these functions state the class invariant, the copy and clone
 * contracts and last-write-wins. The second is the mutable class itself,
 * whose methods are proved against the first layer.
 */
module SoftLayerOptions {
  import opened Wrappers
  import opened PublicSuffix

  // ---------------------------------------------------------------------------
  // The base TemplateOptions configuration
  // ---------------------------------------------------------------------------

  /** Opaque byte content of a script or key (org.jclouds.io.Payload). */
  datatype Payload = Payload(bytes: seq<bv8>)

  /** The two argument shapes of runScript: a Payload, or a raw byte array. */
  datatype Script = ScriptPayload(payload: Payload) | ScriptBytes(bytes: seq<bv8>)

  /** The two argument shapes of installPrivateKey and authorizePublicKey. */
  datatype Key = KeyText(text: string) | KeyPayload(payload: Payload)

  /** One call of a mutator that the base TemplateOptions implements. */
  datatype BaseMutation =
    | InboundPortsCall(ports: seq<int>)
    | BlockOnPortCall(port: int, seconds: int)
    | RunScriptCall(script: Script)
    | InstallPrivateKeyCall(privateKey: Key)
    | AuthorizePublicKeyCall(publicKey: Key)
    | WithMetadataCall

  /**
   * The fields the base TemplateOptions holds. That class is not part of this
   * model, so its configuration is the sequence of base mutator calls it has
   * received, oldest first.
   */
  datatype BaseConfig = BaseConfig(calls: seq<BaseMutation>) {
    /** The configuration after one more base mutator call. */
    function With(m: BaseMutation): BaseConfig {
      BaseConfig(calls + [m])
    }
  }

  /** The base configuration of a newly constructed object. */
  const EmptyBase := BaseConfig([])

  // ---------------------------------------------------------------------------
  // The SoftLayer options as a value
  // ---------------------------------------------------------------------------

  /** The domain every new object starts with. */
  const DefaultDomain: string := "jclouds.org"

  /** The fields of a SoftLayerTemplateOptions object. */
  datatype Snapshot = Snapshot(base: BaseConfig, domainName: string)

  /** The reasons domainName(d) throws. */
  datatype DomainError =
    | NullDomain                     // NullPointerException "domainName was null"
    | NoPublicSuffix(domain: string) // IllegalArgumentException "domainName %s has no public suffix"

  /** The class invariant: the stored domain has a public suffix (and so is not null). */
  predicate Consistent(s: Snapshot) {
    HasPublicSuffix(s.domainName)
  }

  lemma DefaultHasPublicSuffix()
    ensures HasPublicSuffix(DefaultDomain)
  {
    assert EndsWithLabels(DefaultDomain, "org");
  }

  /** The fields of a newly constructed object. */
  function Initial(): (s: Snapshot)
    ensures s.domainName == DefaultDomain && s.base == EmptyBase
    ensures Consistent(s)
  {
    DefaultHasPublicSuffix();
    Snapshot(EmptyBase, DefaultDomain)
  }

  /** The NONE sentinel: the fields it holds when the class is loaded. */
  const NoOptions: Snapshot := Initial()

  lemma NoOptionsHoldsDefaults()
    ensures NoOptions.domainName == "jclouds.org" && NoOptions.base.calls == []
    ensures Consistent(NoOptions)
  {
  }

  /**
   * domainName(d): the null check comes first, then the public-suffix check,
   * and only then the assignment, so a rejected call changes nothing.
   */
  function SetDomainName(s: Snapshot, d: Option<string>): (r: Result<Snapshot, DomainError>)
    ensures r.Success? <==> d.Some? && HasPublicSuffix(d.value)
    ensures r.Failure? ==> r.error == (if d.None? then NullDomain else NoPublicSuffix(d.value))
    ensures r.Success? ==> r.value.domainName == d.value && r.value.base == s.base && Consistent(r.value)
  {
    if d.None? then Failure(NullDomain)
    else if !HasPublicSuffix(d.value) then Failure(NoPublicSuffix(d.value))
    else Success(s.(domainName := d.value))
  }

  /** An object that copyTo may write into: a plain TemplateOptions or a SoftLayer one. */
  datatype TargetState = PlainState(plainBase: BaseConfig) | SoftLayerState(options: Snapshot) {
    function Base(): BaseConfig {
      match this
      case PlainState(b) => b
      case SoftLayerState(o) => o.base
    }
  }

  /** The target's fields after copyTo, and the exception it threw, if any. */
  datatype Copied = Copied(target: TargetState, thrown: Option<DomainError>)

  /**
   * copyTo(to): the base copy (super.copyTo) first replaces the target's base
   * configuration with the source's; then, only when the target is a
   * SoftLayer object, the target's own setter is called with the source's
   * domain. That setter is the one place the call could throw, and the base
   * copy has happened by then.
   */
  function CopyInto(src: Snapshot, to: TargetState): (r: Copied)
    ensures r.target.PlainState? == to.PlainState? && r.target.Base() == src.base
    ensures r.thrown.None? <==> to.PlainState? || HasPublicSuffix(src.domainName)
    ensures r.thrown.Some? ==> r.thrown == Some(NoPublicSuffix(src.domainName))
    ensures to.SoftLayerState? ==>
              r.target.options.domainName ==
              (if r.thrown.None? then src.domainName else to.options.domainName)
  {
    match to
    case PlainState(_) => Copied(PlainState(src.base), None)
    case SoftLayerState(o) =>
      var based := o.(base := src.base);
      match SetDomainName(based, Some(src.domainName))
      case Success(o') => Copied(SoftLayerState(o'), None)
      case Failure(e) => Copied(SoftLayerState(based), Some(e))
  }

  /** clone(): copyTo into a newly constructed SoftLayer object. */
  function CloneState(s: Snapshot): (r: Result<Snapshot, DomainError>)
    ensures Consistent(s) ==> r == Success(s)
    ensures !Consistent(s) ==> r.Failure?
  {
    var c := CopyInto(s, SoftLayerState(Initial()));
    match c.thrown
    case Some(e) => Failure(e)
    case None => if c.target.SoftLayerState? then Success(c.target.options) else Success(Initial())
  }

  // ---------------------------------------------------------------------------
  // Sequences of calls on one object
  // ---------------------------------------------------------------------------

  /** One call a client can make that changes a SoftLayer object. */
  datatype Call =
    | Mutate(m: BaseMutation)        // one of the overridden base mutators
    | SetDomain(d: Option<string>)   // domainName(d)
    | CopyFrom(source: Snapshot)     // source.copyTo(this), source a SoftLayer object

  /**
   * The fields after one call. A rejected domainName call changes nothing; a
   * copy whose setter throws has already replaced the base configuration.
   */
  function Step(s: Snapshot, c: Call): Snapshot {
    match c
    case Mutate(m) => s.(base := s.base.With(m))
    case SetDomain(d) =>
      (match SetDomainName(s, d)
       case Success(t) => t
       case Failure(_) => s)
    case CopyFrom(src) =>
      var c := CopyInto(src, SoftLayerState(s));
      if c.target.SoftLayerState? then c.target.options else s
  }

  /** The fields after a sequence of calls, in order. */
  function Run(s: Snapshot, calls: seq<Call>): Snapshot
    decreases |calls|
  {
    if calls == [] then s else Run(Step(s, calls[0]), calls[1..])
  }

  /** Call `c` assigns the domain `d`: a setter call or a copy that passes the check with `d`. */
  predicate Supplies(c: Call, d: string) {
    match c
    case Mutate(_) => false
    case SetDomain(arg) => arg == Some(d) && HasPublicSuffix(d)
    case CopyFrom(src) => src.domainName == d && HasPublicSuffix(d)
  }

  /**
   * The stored domain is only ever the one the object started with or a value
   * some call of the run passed through the public-suffix check.
   */
  lemma {:induction false} RunDomainOrigin(s: Snapshot, calls: seq<Call>)
    decreases |calls|
    ensures Run(s, calls).domainName == s.domainName ||
            exists i :: 0 <= i < |calls| && Supplies(calls[i], Run(s, calls).domainName)
  {
    if calls != [] {
      var t := Step(s, calls[0]);
      var d := Run(s, calls).domainName;
      RunDomainOrigin(t, calls[1..]);
      if d == t.domainName {
        if d != s.domainName {
          assert Supplies(calls[0], d);
        }
      } else {
        var i :| 0 <= i < |calls[1..]| && Supplies(calls[1..][i], d);
        assert Supplies(calls[i + 1], d);
      }
    }
  }

  /** The class invariant holds after every run that starts from a consistent object. */
  lemma RunKeepsInvariant(s: Snapshot, calls: seq<Call>)
    requires Consistent(s)
    ensures Consistent(Run(s, calls))
  {
    RunDomainOrigin(s, calls);
  }

  /** A chain of the overridden base mutators never changes the domain. */
  lemma MutatorChainKeepsDomain(s: Snapshot, calls: seq<Call>)
    requires forall i :: 0 <= i < |calls| ==> calls[i].Mutate?
    ensures Run(s, calls).domainName == s.domainName
  {
    RunDomainOrigin(s, calls);
  }

  /** Last write wins: an accepted domainName call overrides any earlier one. */
  lemma DomainLastWriteWins(s: Snapshot, first: Option<string>, second: string)
    requires HasPublicSuffix(second)
    ensures Run(s, [SetDomain(first), SetDomain(Some(second))]) == Run(s, [SetDomain(Some(second))])
  {
    assert [SetDomain(first), SetDomain(Some(second))][1..] == [SetDomain(Some(second))];
  }

  /** Copying a consistent SoftLayer source into a SoftLayer target makes the target equal to the source. */
  lemma CopyIntoSoftLayerYieldsSource(src: Snapshot, to: Snapshot)
    requires Consistent(src)
    ensures CopyInto(src, SoftLayerState(to)) == Copied(SoftLayerState(src), None)
  {
  }

  /** Copying into a plain target transfers the base configuration and nothing else. */
  lemma CopyIntoPlainKeepsPlain(src: Snapshot, to: BaseConfig)
    ensures CopyInto(src, PlainState(to)) == Copied(PlainState(src.base), None)
  {
  }

  // ---------------------------------------------------------------------------
  // The mutable objects
  // ---------------------------------------------------------------------------

  /** A plain TemplateOptions object: only the base configuration. */
  class TemplateOptions {
    var base: BaseConfig

    constructor ()
      ensures base == EmptyBase
    {
      base := EmptyBase;
    }
  }

  /** The argument of copyTo, tagged with its run-time class. */
  datatype Target = Plain(plain: TemplateOptions) | SoftLayer(softLayer: SoftLayerTemplateOptions) {
    /** The object the copy writes into. */
    function Object(): object {
      match this
      case Plain(p) => p
      case SoftLayer(o) => o
    }

    /** The target's fields, as a value. */
    function View(): TargetState
      reads Object()
    {
      match this
      case Plain(p) => PlainState(p.base)
      case SoftLayer(o) => SoftLayerState(o.State())
    }
  }

  class SoftLayerTemplateOptions {
    var base: BaseConfig
    var domainName: string

    /** The object's fields, as a value. */
    function State(): Snapshot
      reads this
    {
      Snapshot(base, domainName)
    }

    ghost predicate Valid()
      reads this
    {
      Consistent(State())
    }

    constructor ()
      ensures State() == Initial() && Valid()
    {
      base := EmptyBase;
      domainName := DefaultDomain;
    }

    /** domainName(d): on success returns this object, on failure changes nothing. */
    method DomainName(d: Option<string>) returns (r: Result<SoftLayerTemplateOptions, DomainError>)
      modifies this
      ensures match SetDomainName(old(State()), d)
              case Success(s) => r == Success(this) && State() == s
              case Failure(e) => r == Failure(e) && State() == old(State())
      ensures r.Success? ==> Valid() && GetDomainName() == d.value
    {
      if d.None? {
        return Failure(NullDomain);
      }
      if !HasPublicSuffix(d.value) {
        return Failure(NoPublicSuffix(d.value));
      }
      domainName := d.value;
      return Success(this);
    }

    function GetDomainName(): (d: string)
      reads this
      requires Valid()
      ensures HasPublicSuffix(d)
    {
      domainName
    }

    /** copyTo(to): writes only into `to`, and the source's fields stay as they were. */
    method CopyTo(to: Target)
      requires Valid()
      modifies to.Object()
      ensures State() == old(State())
      ensures CopyInto(old(State()), old(to.View())) == Copied(to.View(), None)
    {
      match to
      case Plain(p) =>
        p.base := base;  // super.copyTo(to)
      case SoftLayer(o) =>
        o.base := base;  // super.copyTo(to)
        var accepted := o.DomainName(Some(domainName));
        assert accepted.Success?;
    }

    /** clone(): a new object with the same fields. */
    method Clone() returns (c: SoftLayerTemplateOptions)
      requires Valid()
      ensures fresh(c) && c.Valid()
      ensures CloneState(State()) == Success(c.State())
    {
      c := new SoftLayerTemplateOptions();
      CopyTo(SoftLayer(c));
    }

    /** The common effect of the overridden base mutators. */
    method Record(m: BaseMutation)
      modifies this
      ensures State() == Step(old(State()), Mutate(m))
      ensures domainName == old(domainName)
    {
      base := base.With(m);
    }

    method InboundPorts(ports: seq<int>) returns (self: SoftLayerTemplateOptions)
      modifies this
      ensures self == this && domainName == old(domainName)
      ensures State() == Step(old(State()), Mutate(InboundPortsCall(ports)))
    {
      Record(InboundPortsCall(ports));
      self := this;
    }

    method BlockOnPort(port: int, seconds: int) returns (self: SoftLayerTemplateOptions)
      modifies this
      ensures self == this && domainName == old(domainName)
      ensures State() == Step(old(State()), Mutate(BlockOnPortCall(port, seconds)))
    {
      Record(BlockOnPortCall(port, seconds));
      self := this;
    }

    method RunScript(script: Script) returns (self: SoftLayerTemplateOptions)
      modifies this
      ensures self == this && domainName == old(domainName)
      ensures State() == Step(old(State()), Mutate(RunScriptCall(script)))
    {
      Record(RunScriptCall(script));
      self := this;
    }

    method InstallPrivateKey(key: Key) returns (self: SoftLayerTemplateOptions)
      modifies this
      ensures self == this && domainName == old(domainName)
      ensures State() == Step(old(State()), Mutate(InstallPrivateKeyCall(key)))
    {
      Record(InstallPrivateKeyCall(key));
      self := this;
    }

    method AuthorizePublicKey(key: Key) returns (self: SoftLayerTemplateOptions)
      modifies this
      ensures self == this && domainName == old(domainName)
      ensures State() == Step(old(State()), Mutate(AuthorizePublicKeyCall(key)))
    {
      Record(AuthorizePublicKeyCall(key));
      self := this;
    }

    method WithMetadata() returns (self: SoftLayerTemplateOptions)
      modifies this
      ensures self == this && domainName == old(domainName)
      ensures State() == Step(old(State()), Mutate(WithMetadataCall))
    {
      Record(WithMetadataCall);
      self := this;
    }
  }

  /** The static factories: construct an object, apply one mutator, return it. */
  class Builder {

    static method DomainName(d: Option<string>) returns (r: Result<SoftLayerTemplateOptions, DomainError>)
      ensures match SetDomainName(Initial(), d)
              case Success(s) => r.Success? && fresh(r.value) && r.value.State() == s
              case Failure(e) => r == Failure(e)
    {
      var options := new SoftLayerTemplateOptions();
      r := options.DomainName(d);
    }

    /** Construct, record one base mutator call; the domain stays the default. */
    static method WithBaseCall(m: BaseMutation) returns (o: SoftLayerTemplateOptions)
      ensures fresh(o) && o.Valid() && o.domainName == DefaultDomain
      ensures o.State() == Step(Initial(), Mutate(m))
    {
      o := new SoftLayerTemplateOptions();
      o.Record(m);
    }

    static method InboundPorts(ports: seq<int>) returns (o: SoftLayerTemplateOptions)
      ensures fresh(o) && o.Valid() && o.domainName == DefaultDomain
      ensures o.State() == Step(Initial(), Mutate(InboundPortsCall(ports)))
    {
      o := WithBaseCall(InboundPortsCall(ports));
    }

    static method BlockOnPort(port: int, seconds: int) returns (o: SoftLayerTemplateOptions)
      ensures fresh(o) && o.Valid() && o.domainName == DefaultDomain
      ensures o.State() == Step(Initial(), Mutate(BlockOnPortCall(port, seconds)))
    {
      o := WithBaseCall(BlockOnPortCall(port, seconds));
    }

    static method RunScript(script: Payload) returns (o: SoftLayerTemplateOptions)
      ensures fresh(o) && o.Valid() && o.domainName == DefaultDomain
      ensures o.State() == Step(Initial(), Mutate(RunScriptCall(ScriptPayload(script))))
    {
      o := WithBaseCall(RunScriptCall(ScriptPayload(script)));
    }

    static method InstallPrivateKey(rsaKey: Payload) returns (o: SoftLayerTemplateOptions)
      ensures fresh(o) && o.Valid() && o.domainName == DefaultDomain
      ensures o.State() == Step(Initial(), Mutate(InstallPrivateKeyCall(KeyPayload(rsaKey))))
    {
      o := WithBaseCall(InstallPrivateKeyCall(KeyPayload(rsaKey)));
    }

    static method AuthorizePublicKey(rsaKey: Payload) returns (o: SoftLayerTemplateOptions)
      ensures fresh(o) && o.Valid() && o.domainName == DefaultDomain
      ensures o.State() == Step(Initial(), Mutate(AuthorizePublicKeyCall(KeyPayload(rsaKey))))
    {
      o := WithBaseCall(AuthorizePublicKeyCall(KeyPayload(rsaKey)));
    }

    static method WithMetadata() returns (o: SoftLayerTemplateOptions)
      ensures fresh(o) && o.Valid() && o.domainName == DefaultDomain
      ensures o.State() == Step(Initial(), Mutate(WithMetadataCall))
    {
      o := WithBaseCall(WithMetadataCall);
    }
  }

  /** A clone is independent: renaming it leaves the original as it was. */
  method CloneThenRename(original: SoftLayerTemplateOptions, d: string) returns (copy: SoftLayerTemplateOptions)
    requires original.Valid() && HasPublicSuffix(d)
    ensures fresh(copy) && copy.Valid() && copy.GetDomainName() == d
    ensures original.State() == old(original.State())
  {
    copy := original.Clone();
    var renamed := copy.DomainName(Some(d));
  }
}
