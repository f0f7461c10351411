# SoftLayer template options in Dafny

This project models `SoftLayerTemplateOptions` from jclouds. It is the SoftLayer flavour of the
compute template options that callers pass to `createNodesInGroup`. The class adds one field,
`domainName`, to the generic `TemplateOptions`. The domain is used when virtual guests are
ordered. It starts as `"jclouds.org"`. It can only be replaced through a setter that rejects
`null` and rejects any name without a public suffix.

The model has three modules:

- `Wrappers` (`wrappers.dfy`): `Option` and `Result`. A `None` argument stands for a Java
  `null`. A `Failure` stands for a thrown exception.
- `PublicSuffix` (`public_suffix.dfy`): a concrete stand-in for Guava's
  `InternetDomainName.from(d).hasPublicSuffix()`. A name passes when all its labels are non-empty
  and its trailing labels match an entry in a small, fixed excerpt of the Public Suffix List.
- `SoftLayerOptions` (`softlayer_template_options.dfy`) has two layers:
  - The object's fields as a value (`Snapshot`), with each operation written as a function on it
    (`SetDomainName`, `CopyInto`, `CloneState`, `Step`, `Run`). The lemmas about these
    functions state the class invariant, the copy and clone contracts, and last-write-wins.
  - The mutable classes `TemplateOptions` and `SoftLayerTemplateOptions`, plus the static
    `Builder` factories. Their methods are proved against the value layer. A `copyTo` target is
    tagged with its run-time class (`Target = Plain(..) | SoftLayer(..)`), which replaces the
    source's `instanceof` test.

The base `TemplateOptions` class is not part of this model. Its fields (ports, block-on-port,
scripts, keys, metadata) are represented by `BaseConfig`: the sequence of base mutator calls an
object has received. `super.copyTo` is modelled as replacing the target's `BaseConfig` with the
source's.

Errors follow the code. `domainName(null)` fails in `checkNotNull` with a
`NullPointerException`, modelled as `NullDomain`. A name without a public suffix fails in
`checkArgument` with an `IllegalArgumentException`, modelled as `NoPublicSuffix(d)`. Both
checks run before the assignment, so a rejected call leaves the object unchanged.

## Model

| member | source | states |
|---|---|---|
| `PublicSuffix.RegisteredNamesPass` | sandbox-providers/softlayer/src/main/java/org/jclouds/softlayer/compute/options/SoftLayerTemplateOptions.java:80-81 | "jclouds.org", "example.com" and "sub.example.co.uk" have a public suffix |
| `PublicSuffix.BareHostFails` | sandbox-providers/softlayer/src/main/java/org/jclouds/softlayer/compute/options/SoftLayerTemplateOptions.java:80-81 | "localhost" has no public suffix, so the setter rejects it |
| `PublicSuffix.EmptyLabelFails` | sandbox-providers/softlayer/src/main/java/org/jclouds/softlayer/compute/options/SoftLayerTemplateOptions.java:80-81 | an empty name and a name with an empty label are rejected |
| `SoftLayerOptions.DefaultHasPublicSuffix` | sandbox-providers/softlayer/src/main/java/org/jclouds/softlayer/compute/options/SoftLayerTemplateOptions.java:53 | the default domain "jclouds.org" passes the public-suffix check |
| `SoftLayerOptions.Initial` | sandbox-providers/softlayer/src/main/java/org/jclouds/softlayer/compute/options/SoftLayerTemplateOptions.java:53 | a new object has domain "jclouds.org" and an empty base configuration, and it satisfies the class invariant |
| `SoftLayerOptions.NoOptionsHoldsDefaults` | sandbox-providers/softlayer/src/main/java/org/jclouds/softlayer/compute/options/SoftLayerTemplateOptions.java:90 | the NONE sentinel holds the default domain and no base configuration, and it satisfies the invariant |
| `SoftLayerOptions.SetDomainName` | sandbox-providers/softlayer/src/main/java/org/jclouds/softlayer/compute/options/SoftLayerTemplateOptions.java:78-84 | the setter succeeds exactly when the argument is non-null and has a public suffix; null fails as NullDomain; a name without a suffix fails as NoPublicSuffix; on success only the domain changes, to exactly the argument, and the invariant holds |
| `SoftLayerOptions.CopyInto` | sandbox-providers/softlayer/src/main/java/org/jclouds/softlayer/compute/options/SoftLayerTemplateOptions.java:62-69 | copyTo always transfers the base configuration first; the target keeps its kind; only a SoftLayer target gets the source's domain; the copy throws only when the target is SoftLayer and the source's domain has no public suffix, and then the target keeps its old domain |
| `SoftLayerOptions.CloneState` | sandbox-providers/softlayer/src/main/java/org/jclouds/softlayer/compute/options/SoftLayerTemplateOptions.java:55-60 | cloning a consistent object yields exactly its fields; cloning an inconsistent one throws |
| `SoftLayerOptions.RunDomainOrigin` | sandbox-providers/softlayer/src/main/java/org/jclouds/softlayer/compute/options/SoftLayerTemplateOptions.java:53-84 | after any sequence of mutator, setter and copy calls, the domain is either the starting one or a value that some call in the sequence passed through the public-suffix check |
| `SoftLayerOptions.RunKeepsInvariant` | sandbox-providers/softlayer/src/main/java/org/jclouds/softlayer/compute/options/SoftLayerTemplateOptions.java:53-84 | the class invariant (the domain is non-null and has a public suffix) survives every sequence of calls |
| `SoftLayerOptions.MutatorChainKeepsDomain` | sandbox-providers/softlayer/src/main/java/org/jclouds/softlayer/compute/options/SoftLayerTemplateOptions.java:155-230 | a chain of the overridden base mutators never changes the domain |
| `SoftLayerOptions.DomainLastWriteWins` | sandbox-providers/softlayer/src/main/java/org/jclouds/softlayer/compute/options/SoftLayerTemplateOptions.java:78-84 | an accepted domainName call overrides any earlier call, whether or not that earlier call was accepted |
| `SoftLayerOptions.CopyIntoSoftLayerYieldsSource` | sandbox-providers/softlayer/src/main/java/org/jclouds/softlayer/compute/options/SoftLayerTemplateOptions.java:62-69 | copying a consistent source into a SoftLayer target makes the target field-for-field equal to the source, whatever the target held before |
| `SoftLayerOptions.CopyIntoPlainKeepsPlain` | sandbox-providers/softlayer/src/main/java/org/jclouds/softlayer/compute/options/SoftLayerTemplateOptions.java:62-69 | copying into a plain target gives it the source's base configuration, and no domain field appears |
| `SoftLayerOptions.SoftLayerTemplateOptions.constructor` | sandbox-providers/softlayer/src/main/java/org/jclouds/softlayer/compute/options/SoftLayerTemplateOptions.java:53 | a new object holds the initial fields and satisfies the invariant |
| `SoftLayerOptions.SoftLayerTemplateOptions.DomainName` | sandbox-providers/softlayer/src/main/java/org/jclouds/softlayer/compute/options/SoftLayerTemplateOptions.java:78-84 | the object's new state and return value follow SetDomainName: on success it returns the receiver and the getter yields the argument; on failure it reports the error and leaves the object unchanged |
| `SoftLayerOptions.SoftLayerTemplateOptions.GetDomainName` | sandbox-providers/softlayer/src/main/java/org/jclouds/softlayer/compute/options/SoftLayerTemplateOptions.java:86-88 | the returned domain always has a public suffix |
| `SoftLayerOptions.SoftLayerTemplateOptions.CopyTo` | sandbox-providers/softlayer/src/main/java/org/jclouds/softlayer/compute/options/SoftLayerTemplateOptions.java:62-69 | writes only into the target; the target's new fields are those given by CopyInto; no exception is thrown; the source is unchanged, even when the target is the source itself |
| `SoftLayerOptions.SoftLayerTemplateOptions.Clone` | sandbox-providers/softlayer/src/main/java/org/jclouds/softlayer/compute/options/SoftLayerTemplateOptions.java:55-60 | returns a newly allocated object with the receiver's fields, which satisfies the invariant, without changing the receiver |
| `SoftLayerOptions.SoftLayerTemplateOptions.InboundPorts` | sandbox-providers/softlayer/src/main/java/org/jclouds/softlayer/compute/options/SoftLayerTemplateOptions.java:165-171 | records the base call, leaves the domain untouched and returns the receiver |
| `SoftLayerOptions.SoftLayerTemplateOptions.BlockOnPort` | sandbox-providers/softlayer/src/main/java/org/jclouds/softlayer/compute/options/SoftLayerTemplateOptions.java:157-163 | records the base call, leaves the domain untouched and returns the receiver |
| `SoftLayerOptions.SoftLayerTemplateOptions.RunScript` | sandbox-providers/softlayer/src/main/java/org/jclouds/softlayer/compute/options/SoftLayerTemplateOptions.java:207-222 | both overloads (payload, byte array): record the base call, leave the domain untouched and return the receiver |
| `SoftLayerOptions.SoftLayerTemplateOptions.InstallPrivateKey` | sandbox-providers/softlayer/src/main/java/org/jclouds/softlayer/compute/options/SoftLayerTemplateOptions.java:190-205 | both overloads (string, payload): record the base call, leave the domain untouched and return the receiver |
| `SoftLayerOptions.SoftLayerTemplateOptions.AuthorizePublicKey` | sandbox-providers/softlayer/src/main/java/org/jclouds/softlayer/compute/options/SoftLayerTemplateOptions.java:173-188 | both overloads (string, payload): record the base call, leave the domain untouched and return the receiver |
| `SoftLayerOptions.SoftLayerTemplateOptions.WithMetadata` | sandbox-providers/softlayer/src/main/java/org/jclouds/softlayer/compute/options/SoftLayerTemplateOptions.java:224-230 | records the base call, leaves the domain untouched and returns the receiver |
| `SoftLayerOptions.Builder.DomainName` | sandbox-providers/softlayer/src/main/java/org/jclouds/softlayer/compute/options/SoftLayerTemplateOptions.java:94-100 | gives a new object whose domain is the argument when the setter accepts it; otherwise reports the setter's error |
| `SoftLayerOptions.Builder.InboundPorts` | sandbox-providers/softlayer/src/main/java/org/jclouds/softlayer/compute/options/SoftLayerTemplateOptions.java:104-110 | gives a new, valid object that holds one base call and the default domain |
| `SoftLayerOptions.Builder.BlockOnPort` | sandbox-providers/softlayer/src/main/java/org/jclouds/softlayer/compute/options/SoftLayerTemplateOptions.java:112-118 | gives a new, valid object that holds one base call and the default domain |
| `SoftLayerOptions.Builder.RunScript` | sandbox-providers/softlayer/src/main/java/org/jclouds/softlayer/compute/options/SoftLayerTemplateOptions.java:120-126 | gives a new, valid object that holds one base call and the default domain |
| `SoftLayerOptions.Builder.InstallPrivateKey` | sandbox-providers/softlayer/src/main/java/org/jclouds/softlayer/compute/options/SoftLayerTemplateOptions.java:128-135 | gives a new, valid object that holds one base call and the default domain |
| `SoftLayerOptions.Builder.AuthorizePublicKey` | sandbox-providers/softlayer/src/main/java/org/jclouds/softlayer/compute/options/SoftLayerTemplateOptions.java:137-144 | gives a new, valid object that holds one base call and the default domain |
| `SoftLayerOptions.Builder.WithMetadata` | sandbox-providers/softlayer/src/main/java/org/jclouds/softlayer/compute/options/SoftLayerTemplateOptions.java:146-152 | gives a new, valid object that holds one base call and the default domain |
| `SoftLayerOptions.CloneThenRename` | sandbox-providers/softlayer/src/main/java/org/jclouds/softlayer/compute/options/SoftLayerTemplateOptions.java:55-60 | a clone is independent of its original: renaming the clone leaves the original unchanged |

## Left out

- Guava's `InternetDomainName` and the Public Suffix List are not part of this model.
  `PublicSuffix.HasPublicSuffix` uses a fixed excerpt of plain list entries, and it checks only
  that labels are non-empty. Wildcard and exception rules, length limits, allowed characters,
  internationalised names and the trailing-dot form are not modelled.
- The base `TemplateOptions` class is not part of this model. Its fields are represented by the
  log of base mutator calls. Any validation those mutators do (and any exception they throw) is not
  modelled. `super.copyTo` is modelled as replacing the whole base configuration. The real base
  class may instead merge field by field.
- NONE is modelled by the fields it holds when the class loads (`NoOptions`). The model does not
  capture that NONE is one shared mutable object that any caller could change.
- The overloads `runScript(Payload)` and `runScript(byte[])` are one method taking a `Script`.
  The same is done for the `String` and `Payload` overloads of `installPrivateKey` and
  `authorizePublicKey`. Payload contents are opaque bytes.
- `domainName(String)` is declared to return `TemplateOptions`. The model returns the receiver,
  which is what it actually returns. The `SoftLayerTemplateOptions.class.cast` calls cannot fail,
  so they are not modelled.
- SoftLayerOptions.SoftLayerTemplateOptions.CopyTo: requires the source object's invariant
  (`Valid()`), which every constructor establishes and every method keeps. Under it, the
  target's setter cannot throw. The throwing case is described by `CopyInto`.
- SoftLayerOptions.SoftLayerTemplateOptions.Clone: requires the receiver's invariant, as CopyTo does.
- The field `domainName` is `protected`. Code in a subclass or in the same package could assign it
  without the check. The invariant is proved only for the members modelled here.
- Concurrent use of one object is not modelled. The source does no locking.
