# Qute section blocks and template cache, in Dafny

This project models two small stateful parts of the Qute templating engine:

- **`SectionBlock` and its `Builder`.** A section tag such as `{#if}…{:else}…{/if}` consists of labelled blocks. While the parser reads a block, it fills a `Builder`:
  - the builder has a fixed id and a settable label;
  - its parameter map is updated in place;
  - its node list only grows, by appending.

  `build()` freezes the builder into a `SectionBlock`. The block gets a copy of the node list. It gets the builder's parameter map itself, not a copy. The model keeps that difference:
  - the nodes are a `seq` value, copied into the block;
  - the parameter map is an object of its own (`Parameters`), shared by the builder and every block it builds.
- **The engine's template cache.** `EngineImpl` keeps a table from template id to compiled template, with four operations:
  - `putTemplate`;
  - `getTemplate`, which is get-or-load;
  - `clearTemplates`;
  - `removeTemplates`.

  On a miss, `load` applies the template locators in registration order. The first locator that yields a reader decides the result. That reader is parsed and then closed, whether or not parsing fails. When no locator yields a reader, the result is null, and a null result is never cached.

Module `SectionBlocks` (section_block.dfy) models SectionBlock.java. Module `Engine` (engine_impl.dfy) models EngineImpl.java. Module `Options` (options.dfy) stands in for null references and `java.util.Optional`.

Modelling choices:
- The template node type, the template type, and the factory and resolver types are type parameters. Their sources are not part of this model.
- The engine's section helper factory map is an object of its own (`FactoryMap`). The getter hands out that very map, so the factories can still change after construction. The resolver and locator lists are immutable sequences.
- `Parser.parse` is a function the engine is given, applied to the engine's current factories and a source text. It returns a template or a parse error. A parse error is the exception that propagates out of `load` and `getTemplate`.
- A reader is an object with:
  - its text;
  - whether its `close()` reports an I/O error;
  - a `closed` flag that records that `close()` was invoked.
- A locator is a function from a template id to an optional reader.
- `load` and `getTemplate` also return a ghost count of the locators they applied, incremented where each locator is applied. It shows that a cache hit consults no locator, and that the locators after the first match are never applied.

## Model

| member | source | states |
|---|---|---|
| SectionBlocks.SectionBlock.constructor | core/src/main/java/io/quarkus/qute/SectionBlock.java:36-41 | the block takes the given id, label and node sequence; its parameter map is the very object passed in, not a copy |
| SectionBlocks.SectionBlock.CreateBuilder | core/src/main/java/io/quarkus/qute/SectionBlock.java:15-17 | returns a fresh builder with the given id, no label, an empty parameter map and no nodes |
| SectionBlocks.Builder.constructor | core/src/main/java/io/quarkus/qute/SectionBlock.java:50-54 | a new builder has the given id (a constant, so it never changes afterwards), an unset label, a fresh empty parameter map and an empty node list |
| SectionBlocks.Builder.AddNode | core/src/main/java/io/quarkus/qute/SectionBlock.java:56-59 | the node is appended after the existing nodes; label and parameters are unchanged; the builder itself is returned |
| SectionBlocks.Builder.AddNodes | core/src/main/java/io/quarkus/qute/SectionBlock.java:61-64 | all given nodes are appended, in their order, after the existing nodes; label and parameters are unchanged |
| SectionBlocks.Builder.SetLabel | core/src/main/java/io/quarkus/qute/SectionBlock.java:66-69 | the label becomes the given one; nodes and parameters are unchanged |
| SectionBlocks.Builder.AddParameter | core/src/main/java/io/quarkus/qute/SectionBlock.java:71-74 | the name maps to the value, overwriting an earlier value; every other name keeps its presence and value; nodes and label are unchanged |
| SectionBlocks.Builder.GetLabel | core/src/main/java/io/quarkus/qute/SectionBlock.java:76-78 | returns the current label, unset until a label is set |
| SectionBlocks.Builder.Build | core/src/main/java/io/quarkus/qute/SectionBlock.java:80-82 | returns a fresh block whose id, label and nodes equal the builder's current ones and whose parameter map is the builder's own map |
| SectionBlocks.LastLabelWins | core/src/main/java/io/quarkus/qute/SectionBlock.java:66-78 | after two setLabel calls, getLabel returns the second label |
| SectionBlocks.BuildSnapshotsNodes | core/src/main/java/io/quarkus/qute/SectionBlock.java:40 | nodes added to the builder after build do not appear in the block already built |
| SectionBlocks.BuildSharesParameters | core/src/main/java/io/quarkus/qute/SectionBlock.java:39 | a parameter added to the builder after build does appear in the block already built |
| Engine.Reader.Close | core/src/main/java/io/quarkus/qute/EngineImpl.java:106-109 | closing marks the reader closed and reports an I/O error exactly when the reader fails on close |
| Engine.FirstMatch | core/src/main/java/io/quarkus/qute/EngineImpl.java:99-101 | finds nothing exactly when every locator yields no reader; otherwise returns the first locator index that yields a reader, with that reader, and every earlier locator yields none |
| Engine.ReaderToClose | core/src/main/java/io/quarkus/qute/EngineImpl.java:100-106 | load touches at most one reader: the first match's, or none |
| Engine.LoadOutcome | core/src/main/java/io/quarkus/qute/EngineImpl.java:98-113 | load returns null exactly when every locator yields no reader; otherwise its outcome is what the parser makes of the first reader found |
| Engine.FirstMatchAppend | core/src/main/java/io/quarkus/qute/EngineImpl.java:99-101 | over a concatenated locator list, a match in the first part wins and the second part is ignored; otherwise the match comes from the second part, shifted by the first part's length |
| Engine.LoadIgnoresLaterLocators | core/src/main/java/io/quarkus/qute/EngineImpl.java:99-104 | once a locator yields a reader, locators registered after it change neither load's outcome nor the number of locators applied |
| Engine.LoadSkipsEmptyLocators | core/src/main/java/io/quarkus/qute/EngineImpl.java:99-101 | locators yielding nothing for the id can be put in front without changing load's outcome; each of them is applied once |
| Engine.EngineImpl.constructor | core/src/main/java/io/quarkus/qute/EngineImpl.java:36-43 | the factories are copied into a fresh map owned by the engine; the resolver and locator lists are held as immutable sequences, so later changes to the caller's collections cannot reach them; the cache starts empty |
| Engine.EngineImpl.GetSectionHelperFactories | core/src/main/java/io/quarkus/qute/EngineImpl.java:60-62 | returns the engine's own factory map, not a copy |
| Engine.EngineImpl.Parse | core/src/main/java/io/quarkus/qute/EngineImpl.java:56-58 | an ad-hoc parse returns what a parser built from the engine's current factories makes of the text, and leaves the cache untouched |
| Engine.EngineImpl.PutTemplate | core/src/main/java/io/quarkus/qute/EngineImpl.java:76-78 | the id maps to the given template; the previous mapping, or none, is returned; no other id is added, removed or changed |
| Engine.EngineImpl.GetTemplate | core/src/main/java/io/quarkus/qute/EngineImpl.java:80-82 | a cached id returns its template, leaves the cache unchanged, applies no locator and touches no reader; on a miss the outcome is load's, and only a returned template is stored |
| Engine.EngineImpl.ClearTemplates | core/src/main/java/io/quarkus/qute/EngineImpl.java:84-87 | the cache becomes empty |
| Engine.EngineImpl.RemoveTemplates | core/src/main/java/io/quarkus/qute/EngineImpl.java:89-92 | exactly the ids satisfying the test are removed; every remaining id keeps its template |
| Engine.EngineImpl.Load | core/src/main/java/io/quarkus/qute/EngineImpl.java:98-114 | applies locators in order up to the first that yields a reader, counting each one applied; parses it with a parser built from the current factories and closes it on every outcome, and a close failure does not change the outcome; returns null after applying every locator when none yields a reader |
| Engine.FactoriesChangeThroughGetter | core/src/main/java/io/quarkus/qute/EngineImpl.java:38 | a factory put into the map returned by the getter changes the engine's factories, and the next parse uses it |
| Engine.GetAfterPut | core/src/main/java/io/quarkus/qute/EngineImpl.java:76-82 | getTemplate right after putTemplate returns the template put, applies no locator and may touch no reader |
| Engine.RepeatedGet | core/src/main/java/io/quarkus/qute/EngineImpl.java:80-82 | two getTemplate calls agree; a returned template is cached and served without locators; a null or a parse failure leaves the cache unchanged, and the second call applies the locators again |
| Engine.GetAfterRemove | core/src/main/java/io/quarkus/qute/EngineImpl.java:89-92 | after removing with a test that accepts the id, getTemplate loads it again through the locators |
| Engine.GetAfterClear | core/src/main/java/io/quarkus/qute/EngineImpl.java:84-87 | after clearing, getTemplate loads through the locators, and the cache then holds at most that one template |

## Left out

- The parser, the evaluator, the section helpers and the resolvers are not part of this model. `Parser.parse` is an arbitrary function from the engine's factories and a source text to a template or a parse error (EngineImpl.java:57, 103). The `Evaluator` the constructor builds (EngineImpl.java:41) is not modelled. The getters for the resolver lists and the evaluator (EngineImpl.java:64-74) are not modelled as methods: the resolver lists are the engine's constant fields. The parser's dependence on the namespace resolvers is folded into the given parse function.
- Discovery of a `PublisherFactory` through `ServiceLoader`, its getter, and the "multiple reactive factories" failure (EngineImpl.java:44-53, 94-96) are left out. They depend on runtime classpath scanning.
- The cache is modelled sequentially. The thread safety of `ConcurrentHashMap` and the atomicity of `computeIfAbsent` are left out.
- Logging of a failed close is left out. The failure is reported by `Reader.Close` and ignored by `Load`, as EngineImpl.java:107-109 does after logging it.
- Reader I/O is left out: a reader is its whole text. The parser consuming the stream is not modelled.
- Null arguments are left out: a null id or template (which `ConcurrentHashMap` rejects with an exception), `setLabel(null)`, and a null node array.
- Engine.EngineImpl.Load: locators are pure functions, so a locator with side effects is not modelled. Which locators are applied is recorded by the ghost count `applied` instead.
- SectionBlocks.Builder.SetLabel: takes a non-null label only, so resetting the label to null is not modelled.
- Engine.RepeatedGet: its `second == first` relies on locators handing out a fresh reader on every call. A locator is a pure function, so it returns the same reader object twice, and the model parses a reader already closed by the first call. In Java, a second parse of the same closed `Reader` would fail instead.
