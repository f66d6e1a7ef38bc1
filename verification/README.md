# bilgeline, modelled and proved

bilgeline reads container labels and a configuration file, compiles them into an OpenTelemetry
collector configuration, and keeps a live collector on that configuration. This project models the
three parts that carry hard guarantees, and the code that joins them.

**The compiler.** `Labels`, `Fields`, `Config`, `Resolve`, `Discovery`, `Assemble` and `Render` follow
the Go code from a labelled container to the collector configuration, loop by loop; every method is
proved against a specification function. `Labelled` says what each label means: every field of the
resulting service, which records it keeps and when a container is routed, from label texts, profile and
container alone. Conditions and statements are stored as OTTL *text*, as the
code prints them. `Collector` gives the configuration a meaning: what a collector exports on account
of a log file, from file through receiver, operator chain, enrichment, filter, routing table and out
pipeline to exporters, reading the OTTL text back with the reader in `Ottl`. `Meaning` says the same
thing straight from the Spec, with no configuration in sight. `Compiler` proves the two agree;
`Attribution` says when a container's records get that container's own treatment, and what happens
to those that do not; `Wiring` and `Reordering` prove the shape and the order-independence of the
configuration; `EndToEnd` carries the results back to labels and configuration files; `Scenarios`
plays two small fleets through.

**The apply protocol.** `Host` is an adversarial runtime: every answer of list, inspect, kill, restart
and write is arbitrary, and every interaction is recorded on a ghost trace. `Apply` models one
application and its watching of the collector; `ApplySafety` reads the guarantees off the trace
alone; `Paths` shows that the mount guard's string prefixes mean path containment.

**The reconcile loop.** `Reconcile` is the machine of passes (hash, file, last outcome), `Debounce`
the machine of the quiet-window timer, and `Daemon` the reconciler object whose methods call all of
the above and move both machines.

`Wrappers`, `Sorting` and `Strings` hold the shared vocabulary.

## Reading order

`Scenarios.PlainService` and `Scenarios.OneLabelSuffices` spell out the simplest case and show that
the hypotheses below can be met. The main results are `Compiler.CompilationPreservesMeaning`,
`Attribution.OwnTreatmentExact`, `EndToEnd.LabelsToExporters`, `EndToEnd.LabelsToSilence`,
`EndToEnd.RenderingNeverFails`, `EndToEnd.FeedbackFree`, `Wiring.CompiledWired`,
`Reordering.RenderingOrderFree`, `Discovery.DiscoveryOrderFree`, `ApplySafety.ApplyIsSafe`,
`Reconcile.RunInvariant` and `Debounce.ReachableIsSound`.

## Hypotheses

The compiler theorem states these explicitly; the code does not enforce all of them.

- Tailable services have distinct container ids (`Discovery.DistinctIds`). It follows when each
  container is listed once and inspecting an id answers for that id (`Discovery.IdsAgree`). That
  listing and inspection show the same labels (`Discovery.LabelsAgree`) is asked for only where a
  relabelled container would be a counterexample.
- The 12-hex digests do not collide on the signatures and routing keys in play
  (`Compiler.SignaturesSeparate`, `Compiler.KeysSeparate`). The first also rules out two different
  signatures that the JSON encoder rejects, since both fall back to one sentinel.
- Equal routing keys mean equal destination sets (`Compiler.KeysFaithful`). Comma-free names suffice;
  over fleets it holds exactly when the default destination is unambiguous (`EndToEnd.DefaultExact`).
- Each record owns its resource attributes. In a real collector records batched by one receiver may
  share a resource.

The main theorem says nothing of parsers keeping `container_id`: it speaks of whatever identity a record
ends up with. The per-service theorems ask that the records of this very file still carry the id
(`Attribution.ClaimsAll`); `Attribution.JsonKeepsIdExact` says for which lines a merging JSON parser
leaves it so.

## What is false of the code

- *The file always equals the rendering of the remembered hash.* False: apply A, write B with a failing
  restart, return to A (`Reconcile.StaleAfterRevert`); or apply A, move to a B that shares its hash
  because the JSON encoder rejects both (`Reconcile.UnhashableStale`). `Reconcile.ConvergesExact` says
  exactly when a pass leaves the right file behind.
- *Every line gets its own container's treatment.* False of a JSON container one of whose lines holds a
  `container_id` field: the line is exported as the container it names, and lost if it names none
  (`Attribution.JsonLineMisattributed`). Exact conditions: `Attribution.RecordExact` for a record,
  `Attribution.OwnTreatmentExact` for a file, `Attribution.JsonKeepsIdExact` on the lines themselves.
- *A service routed nowhere exports nothing.* False when an attribute its labels set spells another
  service's routing key (`Scenarios.NowhereLeaks`); exact conditions: `Attribution.NowhereExact` on the
  Spec, `EndToEnd.LabelsToSilence` on labels.
- *Routing keys identify destination sets.* False for a destination named `a,b` beside destinations `a`
  and `b` (`Backend.KeyClash`), because the default destination is not split at commas. Exact
  conditions: `Compiler.ServedIffFaithful`, `EndToEnd.DefaultExact`.
- *`drop.<n>` patterns come out in index order whatever the map order.* False for `drop.1` beside
  `drop.01` (`Fields.DropOneTwice`); exact condition: `Fields.OrderFreeExact`.
- *Different specs have different hashes.* False for specs the JSON encoder rejects, which all share one
  sentinel; exact condition: `Backend.HashExact`.

## Where the code and its comments disagree

The model follows the code.

- The comment on `watchState` says repeated inspect failures end uncertain. One early "running" followed
  only by failures ends as stayed-running (`Apply.VerdictExact`).
- The comment in `loop` says `timer.C` is only selected on while armed. The select always includes it;
  that no stray tick is ever received is an invariant (`Debounce.ReachableIsSound`).
- docs/OPERATIONS.md lists an invalid boolean among the faults reported on a container. The only
  boolean so parsed is `enable`, and discovery's gate reads an invalid one as not opted in, so the
  fault is never reported (`Discovery.BadEnableIsSilent`).
- `Validate` accepts a destination named `debug`, but assembly leaves it out and the renderer
  synthesizes its own.

## Modelling choices

- Go's map iteration order is a parameter that may be any enumeration of a key set; results are proved
  equal for all of them. `sort.Slice` is a stable sort of an arbitrarily ordered input, which covers
  every outcome on ties.
- The regexp engine, the JSON and YAML encoders, SHA-256, Go's `%q`, duration parsing, `${env:VAR}`
  scanning, the json-file envelope and every stanza operator but the two that recover a line's identity
  are function parameters, so all results hold for any of them. A stanza operator maps the sequence of
  records of one file to another sequence, so recombining and dropping are covered. A receiver's
  include path is one file, not a glob.
- The OTTL reader understands the fragment bilgeline writes, with the two escapes it uses.
- Error and diagnostic messages are reduced to reasons with the values they quote. Nil and empty slices
  are one. A cancelled context is a wait that reports cancellation. A write is atomic: all or nothing.
- The select loop is modelled over any finite schedule of what it can meet, including the passing of
  time and the timer firing.

## Model

| member | source | states |
|---|---|---|
| Compiler.CompilationPreservesMeaning | internal/backend/otelcol/render.go:55-141 | For every Spec meeting the hypotheses where rendering succeeds and for every log file, the deliveries of a collector running the compiled configuration are, as a multiset, those the Spec asks for; files of no service yield nothing; the inert configuration satisfies the same statement |
| Attribution.ServicePreserved | internal/backend/otelcol/render.go:55-141 | The same per service: when the records of a routed service's file still carry its id, each is delivered once to each of its destinations when stream, floor and drops keep it, and nowhere otherwise |
| Attribution.ClaimantTreats | internal/backend/otelcol/render.go:443-468 | Records that all carry some service's id get that service's filters, attributes and destinations, whichever file they come from |
| Attribution.UnclaimedLost | internal/backend/otelcol/render.go:475-512 | Records that carry nobody's id and no routing key are lost |
| Attribution.RecordExact | internal/backend/otelcol/render.go:402-468 | A record gets the treatment of the service whose file it came from if and only if it leaves exactly when that service wants it to, and then with that service's stamps |
| Attribution.OwnTreatmentExact | internal/backend/otelcol/render.go:402-468 | A file is exported as its service asks if and only if every record the service keeps still carries its id and none it drops leaves under another's |
| Attribution.IdentityRecovered | internal/backend/otelcol/render.go:247-264 | The two leading operators recover container id, stream and text of every line of a 64-hex container's file; what the chain emits is its parsers applied to that |
| Attribution.JsonKeepsIdExact | internal/backend/otelcol/render.go:266-273 | Under a merging JSON parser a file's records all keep their id if and only if no line holds a container_id field naming another container |
| Attribution.JsonServed | internal/backend/otelcol/render.go:266-273 | A routed JSON service whose lines name no other container is served exactly as it says |
| Attribution.JsonLineMisattributed | internal/backend/otelcol/render.go:266-273 | A line whose text names another routed service is exported as that service; one that names nobody is lost |
| Attribution.NowhereSilent | internal/backend/otelcol/render.go:402-437 | A service routed nowhere stays silent if and only if none of the records it keeps carries another service's routing key |
| Attribution.NowhereExact | internal/backend/otelcol/render.go:422-428 | With nothing in the records' own resource, that fails exactly when a static attribute spells a routing key in play |
| Compiler.IngestMeans | internal/backend/otelcol/render.go:362-390 | Running enrich then filter over the merged processors stamps a record with its one claimant's attributes and drops it exactly when that service does |
| Compiler.RouteMeans | internal/backend/otelcol/render.go:475-512 | The routing table hands a record to the destinations its key selects, each exactly once, and drops a record with no key in play |
| Compiler.ServedIffFaithful | internal/backend/otelcol/render.go:68-82 | Routing serves every service's destination set if and only if equal joined keys mean equal sets |
| Compiler.ReceiverOf | internal/backend/otelcol/render.go:204-241 | Exactly one receiver tails a service's file and it runs that service's own operator chain |
| Compiler.OnlyIngestReads | internal/backend/otelcol/render.go:118-127 | Only the ingest pipeline reads files; every out pipeline is fed by the routing connector |
| Meaning.FilterMeans | internal/backend/otelcol/render.go:443-468 | Some printed condition of the merged filter holds of a record if and only if the service claiming it drops it |
| Meaning.OwnCondsMean | internal/backend/otelcol/render.go:443-468 | On a service's own records its conditions fire exactly when stream, severity floor (severity 0 always passes) or a drop pattern reject them |
| Meaning.SeverityFloorIsRank | internal/backend/otelcol/render.go:614-631 | The numeric floors are the lowest SeverityNumber of their level in the OpenTelemetry Logs Data Model, and unknown names have none |
| Meaning.GroupsMean | internal/backend/otelcol/render.go:402-437 | The statements of all services, run in order, stamp a record with exactly its claimant's attributes |
| Meaning.PairsMean | internal/backend/otelcol/render.go:402-437 | A service's statements amount to routing key over static attributes over identity over what the record had |
| Wiring.CompiledWired | internal/backend/otelcol/render.go:84-163 | In both shapes every component named is defined, every component defined is used, and every pipeline has a receiver and an exporter |
| Wiring.GroupingRefines | internal/backend/otelcol/render.go:204-241 | Include lists are duplicate-free and disjoint, cover exactly the services' files, and each file goes through the chain its service alone would have had |
| Wiring.CompiledFurnished | internal/backend/otelcol/render.go:84-163 | Health check and file storage where the deployment says, memory limiter first, enrichment before filtering, a filter exactly when some service drops something, one failure never failing the rest |
| Render.OperatorsFromSignature | internal/backend/otelcol/render.go:165-191 | Operator chains depend on the signature fields alone |
| Reordering.RenderingOrderFree | internal/backend/otelcol/render.go:58-82 | Permuting services and permuting or repeating routes changes neither success nor the configuration |
| Render.BuildConfig | internal/backend/otelcol/render.go:55-141 | Succeeds exactly when every referenced destination is exportable, then yields the specified configuration whatever order maps are walked in; an error names an offending referenced destination |
| Render.OperatorsSequenced | internal/backend/otelcol/render.go:247-356 | Setting by setting: envelope and id operators first; the body parser its mode calls for; the time parser exactly when a field is named; the line joiner exactly when there is a pattern; severity exactly when parsed, from the named field or three guarded ones, with the mapping if there is one; the profile's operators last and verbatim |
| Render.BuildOperators | internal/backend/otelcol/render.go:247-356 | The loop builds such a chain |
| Render.GroupServices | internal/backend/otelcol/render.go:204-221 | Groups services by signature hash, keeping order, with the first of each group as representative |
| Render.BuildReceivers | internal/backend/otelcol/render.go:204-241 | One file-tailing receiver per signature hash over its members' files, with sorted names; the files tailed are the json-file logs of the services, component by component, and no others |
| Render.DockerPathExact | internal/backend/otelcol/render.go:603-605 | The path of a container's log splits into var, lib, docker, containers, the id and the id with -json.log, and no other path does |
| Render.ResolveSets | internal/backend/otelcol/render.go:68-82 | One destination set per routed service, none for services routed nowhere |
| Render.EnrichStatements | internal/backend/otelcol/render.go:402-437 | One statement group per service, guarded by its container id, in service order |
| Render.FilterConditions | internal/backend/otelcol/render.go:443-468 | The concatenation of all services' drop conditions, each conjoined with the container id |
| Render.BuildProcessors | internal/backend/otelcol/render.go:362-390 | The processors and the ingest order; the filter appears only when there is a condition |
| Render.BuildRouting | internal/backend/otelcol/render.go:475-512 | One table entry and one out pipeline per routing key, in key order |
| Render.BuildExporters | internal/backend/otelcol/render.go:518-551 | Fails exactly when a referenced destination is undefined or of an unknown type, naming one; otherwise exactly one exporter per destination, under the component for its kind and its own name, with its settings verbatim, an undefined debug printing in detail |
| Render.ComponentExact | internal/backend/otelcol/render.go:562-587 | The table of exporter components: loki is served by otlphttp, every other known kind by its namesake |
| Render.ExporterIdInjective | internal/backend/otelcol/render.go:553-577 | Distinct destinations never share an exporter id, although loki and otlphttp share a type |
| Ottl.ReadLiteralPrinted | internal/backend/otelcol/render.go:633-639 | Reading a printed literal followed by any text gives back exactly the value and exactly that text |
| Ottl.LiteralPrefixCode | internal/backend/otelcol/render.go:633-639 | Printed literals form a prefix code |
| Ottl.ReadConditionPrinted | internal/backend/otelcol/render.go:443-468 | Every printed condition reads back as its atoms, whatever text they embed |
| Ottl.ReadSetPrinted | internal/backend/otelcol/render.go:402-437 | Every printed set statement reads back as its key and value |
| EndToEnd.LabelsToExporters | internal/discovery/resolve.go:38-228 | From labels to exporters: the records of a routed container's log file go, when its labels keep them, once to each destination its labels (or the default) name and nowhere else, carrying the attributes its labels decide |
| EndToEnd.LabelsToFields | internal/discovery/resolve.go:95-196 | Every field of a service is what container, labels and profile spell, and the records it keeps are those its labels keep |
| EndToEnd.FilesTailed | internal/backend/otelcol/render.go:222-238 | In the compiled configuration every service's log file is tailed through the operators it calls for, and every file tailed is some service's |
| EndToEnd.ExportersConfigured | internal/backend/otelcol/render.go:518-551 | Every destination a service names has its exporter in the compiled configuration, under the id deliveries carry, with the component and settings the configuration file gives it |
| EndToEnd.KindsExact | internal/config/config.go:229 | Validation accepts a destination type exactly when a component exports it |
| EndToEnd.LabelsToSilence | internal/discovery/resolve.go:38-228 | A container routed nowhere named "none", and exports nothing unless the attribute its labels give the routing key's name spells a key in play and some record is kept |
| EndToEnd.LabelsToResource | internal/discovery/resolve.go:172-191 | The resource attribute under each key is the routing key over attr.<key> over the profile over a promoted label over the identity |
| EndToEnd.RenderingNeverFails | internal/config/config.go:344-364 | For every configuration whose destination types are known, as Validate ensures, and every fleet, rendering succeeds |
| EndToEnd.FeedbackFree | internal/discovery/resolve.go:49-64 | For any configuration and any digests, no receiver tails bilgeline's own container, a marked collector or a container that did not opt in, and nothing they log is exported |
| EndToEnd.RoutesExact | internal/discovery/resolve.go:423-452 | A container routes to exactly the destinations it names, or the default if it names none, nowhere if "none" is among them, and all are known |
| EndToEnd.DefaultExact | internal/discovery/resolve.go:423-435 | Routing keys are faithful over all label maps if and only if the unsplit default destination does not spell a sorted list of nameable destinations |
| EndToEnd.AmbiguousClashes | internal/discovery/resolve.go:423-435 | Otherwise a container without a destination label and one labelled with the default's own name share a key and differ in destinations |
| Scenarios.PlainService | internal/backend/otelcol/render.go:55-141 | A container without parsers routed to debug: each line comes out once, decoded and stamped, exactly when it is kept; the hypotheses of the main theorem are met outright |
| Scenarios.OneLabelSuffices | internal/discovery/resolve.go:38-228 | A container carrying only the opt-in label, with debug as the default, has every line exported once |
| Scenarios.NowhereLeaks | internal/backend/otelcol/render.go:422-428 | A container labelled destination none and attr.bilgeline.routing_key debug, beside one routed to debug, has its log exported |
| Scenarios.SpelledNormalized | internal/discovery/labels.go:44-74 | Spelling any suffix map under the bilgeline prefix and normalizing gives it back |
| EndToEnd.FleetIsSound | internal/discovery/discovery.go:128-168 | Discovered fleets meet the compiler's hypotheses |
| Discovery.Discover | internal/discovery/discovery.go:128-168 | Fails only with the listing; inspects exactly the opted-in containers once each in listing order; services come sorted by id, diagnostics in order |
| Discovery.DiscoveryOrderFree | internal/discovery/discovery.go:128-168 | Services depend only on the set of containers, not on listing order or map order |
| Discovery.DiscoveryIsolates | internal/discovery/discovery.go:137-164 | Whatever changes or fails for one container, all other containers' services are unchanged |
| Discovery.DiscoveryAccounts | internal/discovery/discovery.go:137-164 | When nothing is relabelled in between, every opted-in container is routed or has a diagnostic |
| Discovery.RoutedAsked | internal/discovery/discovery.go:137-164 | Whatever is routed opted in, when listed and when inspected, and is neither bilgeline nor a marked collector |
| Discovery.ErrorsOnce | internal/discovery/discovery.go:137-164 | No container has more than one error diagnostic, and none that has one is routed |
| Discovery.BadEnableIsSilent | internal/discovery/discovery.go:137-142 | The diagnostic for an enable label that is no boolean never reaches discovery's result |
| Discovery.SortByIdUnique | internal/discovery/discovery.go:160-168 | With distinct ids the sorted services depend only on which services there are |
| Resolve.Resolve | internal/discovery/resolve.go:38-228 | Computes the resolution of a container, whose meaning the next rows state |
| Labelled.ResolutionExact | internal/discovery/resolve.go:49-228 | A container becomes a service exactly when it is neither bilgeline nor marked, opted in, consistent, every label acceptable, its log driver json-file or unknown and its destinations known |
| Labelled.AssembledExact | internal/discovery/resolve.go:82-196 | Labels are accepted exactly when each is acceptable; then every field is as label, profile and container spell it, label over profile; otherwise the reason names something that is wrong |
| Labelled.KeptExact | internal/discovery/resolve.go:300-348 | A record is kept exactly when it is not of the stream the label excludes, not below the labelled floor, and matched by no list, numbered or profile drop |
| Labelled.ErrorExact | internal/discovery/resolve.go:38-228 | An opted-in container gets an error exactly for contradicting labels, an unacceptable label or unknown destinations; exclusions and log drivers only warn; every diagnostic is about the container |
| Labelled.FloorWarningExact | internal/discovery/resolve.go:198-202 | A floor is warned about exactly when nothing parses a severity |
| Resolve.ResolutionAccounts | internal/discovery/resolve.go:38-228 | An opted-in container is routed or explained, with at most one error and never both; what is routed opted in and is not excluded |
| Resolve.AttributePrecedence | internal/discovery/resolve.go:350-416 | Each static attribute comes from attr.<key>, else the profile, else a promoted label carried with a value |
| Resolve.PromotedIff | internal/discovery/resolve.go:375-392 | A key is promoted if and only if the container lists it or the fleet-wide set does and the container does not say "none" |
| Resolve.ResolveDrops | internal/discovery/resolve.go:321-348 | The union of csv, indexed and profile drops, each non-empty pattern once in order of first mention; the first invalid one is fatal |
| Resolve.ResolveAttrs | internal/discovery/resolve.go:353-369 | The profile's attributes overlaid by attr.<key> labels, whatever the map order |
| Resolve.PromoteLabelValues | internal/discovery/resolve.go:401-416 | Adds promoted labels the container carries with a value and overwrites nothing |
| Resolve.ResolveRoutes | internal/discovery/resolve.go:423-452 | Named destinations or the default, "none" anywhere routing nowhere before any name is checked, the first unknown name failing |
| Labels.NormalizeLabels | internal/discovery/labels.go:44-74 | Succeeds only on consistent labels with the suffix map; otherwise reports the first clash in key order, whatever the map order |
| Labels.NormalizedExact | internal/discovery/labels.go:44-74 | Labels are accepted if and only if no suffix carries two values, and then the result holds exactly the suffix-value pairs the labels spell |
| Labels.RawBoolAgrees | internal/discovery/labels.go:82-91 | On consistent labels a raw marker agrees with the normalized value |
| Labels.RawBoolExact | internal/discovery/labels.go:82-91 | A marker is set exactly when its label, under either prefix, spells true |
| Labels.StripPrefixExact | internal/discovery/labels.go:25-33 | A key yields a suffix exactly when it is one of the two prefixes followed by that non-empty suffix |
| Fields.SplitCSV | internal/discovery/fields.go:33-49 | Splits at commas, trims, and keeps the non-empty items in order |
| Fields.CSVRoundTrip | internal/discovery/fields.go:33-49 | Joining any list of items with commas and splitting it again loses nothing |
| Fields.CSVItems | internal/discovery/fields.go:33-49 | Every item is non-empty, comma-free and has no surrounding space |
| Fields.CSVExact | internal/discovery/fields.go:33-49 | The items are what stands between the commas, less the space around it, where anything is left |
| Fields.IndexedValues | internal/discovery/fields.go:55-81 | The values of prefix.<n> labels in ascending integer order, non-integers ignored |
| Fields.IndexedExact | internal/discovery/fields.go:55-81 | The values are exactly those of the labels that spell a number after the prefix, and their numbers ascend |
| Fields.OrderFreeExact | internal/discovery/fields.go:55-81 | The result is independent of map order if and only if labels spelling one index carry one value |
| Fields.DropOneTwice | internal/discovery/fields.go:55-81 | drop.1 and drop.01 spell one index, and with different values come out in walk order |
| Fields.UnionStrings | internal/discovery/fields.go:86-110 | The concatenation of both lists with each string kept at its first occurrence |
| Backend.DestinationNames | internal/backend/backend.go:272-287 | The sorted listing of the destination set, without repetition |
| Backend.KeyInjective | internal/backend/backend.go:272-287 | For comma-free names two services share a routing key if and only if their destination sets agree |
| Backend.KeySplits | internal/backend/otelcol/render.go:73-81 | Splitting a joined key of comma-free names recovers the sorted list |
| Backend.KeyClash | internal/backend/otelcol/render.go:73-81 | A destination named a,b shares its key with the set of a and b |
| Backend.HashExact | internal/backend/backend.go:94-104 | Given collision-free encoders, two specs share a hash if and only if they are equal or neither can be encoded |
| Assemble.AssembleSpec | internal/daemon/spec.go:30-57 | Carries exactly the referenced destinations the configuration defines, never debug, each with its sink's kind and, key by key, its sink's settings |
| Assemble.FlattenExact | internal/daemon/spec.go:79-107 | Under endpoint, path and headers the sink's own non-empty field, its inline setting everywhere else, nothing lost or added |
| Config.Validate | internal/config/config.go:341-407 | Reports every fault of destinations, default, debounce, profiles, notification channels and telemetry sinks, and nothing else |
| Paths.CoversExact | internal/backend/otelcol/apply.go:372-392 | A mount covers the shared path if and only if it is absolute and its component list is a prefix of the path's |
| Paths.MountGuardExact | internal/backend/otelcol/apply.go:372-392 | The mount guard accepts a container if and only if one of its mounts is such a prefix |
| Paths.ComponentsStep | internal/backend/otelcol/apply.go:372-382 | What a path denotes, element by element: empty and dot stay, two dots climb, never above the root, all else descends |
| Apply.WatchState | internal/backend/otelcol/apply.go:198-241 | Over the state texts inspected: died iff one reads exited or dead, stayed running iff none does and the last answer reads running; it ends early only on a death or cancellation, within ceil(window/250ms)+1 inspections |
| Apply.VerdictExact | internal/backend/otelcol/apply.go:198-241 | The verdict function says the same of any observations |
| Apply.HealthExact | internal/backend/otelcol/apply.go:211-220 | A state counts as running or dead exactly when its text, in any case and with any space around it, reads running, or exited or dead |
| Apply.FindCollector | internal/backend/otelcol/apply.go:260-308 | One listing decides the choice: chosen, absent, not running, ambiguous or in disagreement |
| Apply.ChoiceExact | internal/backend/otelcol/apply.go:260-308 | An id is chosen exactly when a container reads running and is the only marked one, with the configured name not pointing elsewhere, or the named one with none marked; ambiguous, disagreeing and absent each exactly when they should be |
| Apply.ReferenceExact | internal/backend/otelcol/apply.go:355-366 | A reference matches by name, slash or no slash, by id, or by twelve or more characters of it |
| Apply.MarkedExact | internal/backend/otelcol/apply.go:342-351 | The collector marker, under either prefix |
| Apply.FindFirst | internal/backend/otelcol/apply.go:355-366 | The configured reference picks the first container it matches, or none matches |
| Apply.EnvPreflight | internal/backend/otelcol/apply.go:398-433 | The referenced environment names the collector lacks, each once and sorted |
| Apply.EnvNameExact | internal/backend/otelcol/apply.go:403-410 | Only the text before the first equals sign counts |
| Apply.Backend.Apply | internal/backend/otelcol/apply.go:50-119 | Whatever the runtime answers, the interactions, report and file are those of one of the possible stories, and no watch gave up early |
| Apply.Backend.RecoverAfterReload | internal/backend/otelcol/apply.go:127-177 | After the hang-up: watch, restart once only on a death, watch again |
| ApplySafety.ApplyIsSafe | internal/backend/otelcol/apply.go:50-177 | The one write precedes every signal; at most one SIGHUP and one restart, to one vetted container; a restart only after an observed death since a delivered SIGHUP; the action says exactly which effects happened |
| ApplySafety.FailureExact | internal/backend/otelcol/apply.go:50-177 | Read off the trace: an application fails if and only if nothing was written, or a restart call failed, or the inspections after it do not end with a live, running collector |
| ApplySafety.DeathIsMet | internal/backend/otelcol/apply.go:146-155 | A death seen after a delivered hang-up is always met by a restart |
| Reconcile.RunInvariant | internal/daemon/reconcile.go:85-121 | Over every run of passes the remembered hash is that of the last spec applied without error, the file that of the last spec written, and the two agree unless the last write was reported as failed |
| Reconcile.LastHashChanges | internal/daemon/reconcile.go:101-121 | Over any run, a changed hash is that of the spec of the last pass whose Apply returned no error |
| Reconcile.FailedIsRetried | internal/daemon/reconcile.go:85-121 | A spec whose pass failed is attempted again by the next pass that sees it |
| Reconcile.UnchangedIsIdle | internal/daemon/reconcile.go:85-91 | Once applied, a fleet that does not change causes no render and no apply |
| Reconcile.ConvergesExact | internal/daemon/reconcile.go:85-121 | A clean pass leaves the file rendering its spec if and only if it is not skipped while the last spec written renders differently |
| Reconcile.UnhashableStale | internal/daemon/reconcile.go:85-121 | Two specs the JSON encoder rejects: after the first is applied, the second is skipped and the file keeps the first, with no failure recorded |
| Reconcile.StaleAfterRevert | internal/daemon/reconcile.go:85-121 | The run A applied, B written with a failing apply, back to A leaves B in the file for as long as the fleet stays at A |
| Debounce.ReachableIsSound | internal/daemon/reconcile.go:149-200 | In every reachable state armed means running or undelivered tick, never both; a reconcile comes only a full quiet window after the last relevant event; reconciles never exceed events |
| Debounce.BurstCoalesces | internal/daemon/reconcile.go:140-148 | A burst with gaps under the window causes exactly one reconcile, after the quiet window |
| Debounce.PendingIsServed | internal/daemon/reconcile.go:149-200 | On every schedule an event stays pending until a tick is received; once a quiet window has passed since the last event the timer can fire or its tick is waiting; the tick, when received, runs a reconcile |
| Daemon.Reconciler.Reconcile | internal/daemon/reconcile.go:51-129 | One pass moves the state by one step of the pass machine and interacts as its account says, whatever the runtime answers |
| Daemon.Reconciler.Rearm | internal/daemon/reconcile.go:165-183 | Stop and drain when armed, then start a clean window |
| Daemon.Reconciler.Loop | internal/daemon/reconcile.go:149-200 | Over any schedule the timer and the armed flag follow the debounce machine and one pass happens per reconcile |
| Daemon.Reconciler.Run | internal/daemon/reconcile.go:134-138 | One pass, then the loop; at the end the file renders the spec whose hash is remembered, unless the last write was reported as failed |

## Left out

- YAML and JSON encoding, SHA-256, regular expressions: parameters with stated injectivity where needed.
- What stanza parsers do, batching, the memory limiter, file offsets and rotation, and the timeouts that flush a half-recombined entry: an operator is any function on the records of one file.
- The HTTP health probe: it affects detail text only.
- The temporary file, fsync and rename behind an atomic write.
- Notifications, telemetry, the health outcome of a pass, secret resolution, the command line, the runtime socket and self-id discovery.
- Wording of log lines, diagnostics and errors.
- Loading configuration files, environment overlays, defaults and `EnvRefs`: they share no state with the parts modelled.
- `Healthy`: it repeats the collector selection without effects.
- The mutex around a pass and races inside the Go timer: passes and timer operations are atomic steps.
- Daemon.Reconciler.Loop: covers every finite stretch of the select loop; liveness of the surrounding scheduler is not modelled.
