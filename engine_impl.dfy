/** The template cache of the engine and the lookup of template sources
    through an ordered list of locators (core/src/main/java/io/quarkus/qute/EngineImpl.java).

    The parser, the evaluator and the resolvers are not part of this model:
    `Parser.parse` is a function the engine is given, the template type and
    the factory and resolver types are type parameters. */
module Engine {

  import opened Options

  /** A character stream handed out by a locator. `closed` records that
      close() has been invoked on it, whether or not that call reported an
      I/O error; `failsOnClose` says whether it does. */
  class Reader {
    const content: string
    const failsOnClose: bool
    var closed: bool

    constructor (content: string, failsOnClose: bool)
      ensures this.content == content && this.failsOnClose == failsOnClose && !closed
    {
      this.content := content;
      this.failsOnClose := failsOnClose;
      closed := false;
    }

    /** Reports whether an IOException was raised. */
    method Close() returns (ioError: bool)
      modifies this
      ensures closed
      ensures ioError == failsOnClose
    {
      closed := true;
      ioError := failsOnClose;
    }
  }

  /** A template locator: maps a template id to a reader, or to nothing. */
  type Locator = string -> Option<Reader>

  /** What the parser makes of a source text: a template, or a parse error. */
  datatype ParseResult<Tpl> = Parsed(template: Tpl) | ParseError(message: string)

  /** How a call to `load` or `getTemplate` ends: it returns a template, it
      returns null, or the parser's exception propagates out of it. */
  datatype Outcome<Tpl> = Returned(template: Tpl) | ReturnedNull | Threw(message: string)

  /** A parse result as seen by the caller of `load`. */
  function Completed<Tpl>(p: ParseResult<Tpl>): Outcome<Tpl>
  {
    match p
    case Parsed(t) => Returned(t)
    case ParseError(m) => Threw(m)
  }

  /** The first locator that yields a reader for `id`: its index and the reader. */
  function FirstMatch(locators: seq<Locator>, id: string): (m: Option<(nat, Reader)>)
    ensures m.None? <==> forall i :: 0 <= i < |locators| ==> locators[i](id).None?
    ensures m.Some? ==>
      && m.value.0 < |locators|
      && locators[m.value.0](id) == Some(m.value.1)
      && forall i :: 0 <= i < m.value.0 ==> locators[i](id).None?
  {
    if |locators| == 0 then None
    else if locators[0](id).Some? then Some((0, locators[0](id).value))
    else
      match FirstMatch(locators[1..], id)
      case None => None
      case Some((i, r)) => Some((i + 1, r))
  }

  /** The reader `load` opens for `id`, if any: the one it must close. */
  function ReaderToClose(locators: seq<Locator>, id: string): (s: set<Reader>)
    ensures |s| <= 1
  {
    match FirstMatch(locators, id)
    case None => {}
    case Some((_, r)) => {r}
  }

  /** How many locators `load` applies for `id`. */
  function Consulted(locators: seq<Locator>, id: string): nat
  {
    match FirstMatch(locators, id)
    case None => |locators|
    case Some((i, _)) => i + 1
  }

  /** The result of `load(id)`: null exactly when no locator yields a reader,
      otherwise what the parser makes of the first reader found. */
  function LoadOutcome<Tpl>(locators: seq<Locator>, parse: string -> ParseResult<Tpl>, id: string): (r: Outcome<Tpl>)
    ensures r.ReturnedNull? <==> forall i :: 0 <= i < |locators| ==> locators[i](id).None?
    ensures forall i :: 0 <= i < |locators| && locators[i](id).Some? && (forall j :: 0 <= j < i ==> locators[j](id).None?) ==>
      r == Completed(parse(locators[i](id).value.content))
  {
    match FirstMatch(locators, id)
    case None => ReturnedNull
    case Some((_, reader)) => Completed(parse(reader.content))
  }

  /** First match over a concatenation: a match in the first part wins and the
      second part is never looked at; otherwise the match (if any) comes from
      the second part, shifted by the length of the first. */
  lemma {:induction false} FirstMatchAppend(ls: seq<Locator>, more: seq<Locator>, id: string)
    ensures FirstMatch(ls + more, id) ==
      match FirstMatch(ls, id)
      case Some(m) => Some(m)
      case None =>
        match FirstMatch(more, id)
        case None => None
        case Some((i, r)) => Some((i + |ls|, r))
  {
    if |ls| > 0 {
      assert (ls + more)[0] == ls[0];
      if ls[0](id).None? {
        assert (ls + more)[1..] == ls[1..] + more;
        FirstMatchAppend(ls[1..], more, id);
      }
    }
    else {
      assert ls + more == more;
    }
  }

  /** Once some locator yields a reader, locators registered after it have no
      influence on what `load` returns. */
  lemma LoadIgnoresLaterLocators<Tpl>(ls: seq<Locator>, more: seq<Locator>, parse: string -> ParseResult<Tpl>, id: string)
    requires exists i :: 0 <= i < |ls| && ls[i](id).Some?
    ensures LoadOutcome(ls + more, parse, id) == LoadOutcome(ls, parse, id)
    ensures Consulted(ls + more, id) == Consulted(ls, id)
  {
    FirstMatchAppend(ls, more, id);
  }

  /** Locators that yield nothing for `id` may be put in front of the list
      without changing what `load` returns. */
  lemma LoadSkipsEmptyLocators<Tpl>(ls: seq<Locator>, more: seq<Locator>, parse: string -> ParseResult<Tpl>, id: string)
    requires forall i :: 0 <= i < |ls| ==> ls[i](id).None?
    ensures LoadOutcome(ls + more, parse, id) == LoadOutcome(more, parse, id)
    ensures Consulted(ls + more, id) == |ls| + Consulted(more, id)
  {
    FirstMatchAppend(ls, more, id);
  }

  /** The engine's own section helper factory map: a java.util.HashMap that
      the engine's getter hands out, so holders of the engine can still
      change it after construction. */
  class FactoryMap<Factory> {
    var entries: map<string, Factory>

    constructor (entries: map<string, Factory>)
      ensures this.entries == entries
    {
      this.entries := entries;
    }
  }

  /** The engine: its configuration and its mutable template cache.
      Factory, Resolver and NsResolver stand for the section helper factory,
      value resolver and namespace resolver types. */
  class EngineImpl<Tpl, Factory, Resolver, NsResolver> {
    const sectionHelperFactories: FactoryMap<Factory>
    const valueResolvers: seq<Resolver>
    const namespaceResolvers: seq<NsResolver>
    const locators: seq<Locator>
    /** What a parser built from an engine with the given factories makes of
        a source text. */
    const parse: (map<string, Factory>, string) -> ParseResult<Tpl>
    var templates: map<string, Tpl>

    /** `new Parser(this).parse`: a parser built from the engine's factories
        as they are now. */
    function CurrentParser(): string -> ParseResult<Tpl>
      reads sectionHelperFactories
    {
      var factories := sectionHelperFactories.entries;
      text => parse(factories, text)
    }

    /** The factory map is copied into a fresh map of the engine's own; the
        resolver and locator lists are copied into immutable lists, which
        sequences are. */
    constructor (sectionHelperFactories: map<string, Factory>, valueResolvers: seq<Resolver>,
                 namespaceResolvers: seq<NsResolver>, locators: seq<Locator>,
                 parse: (map<string, Factory>, string) -> ParseResult<Tpl>)
      ensures fresh(this.sectionHelperFactories) && this.sectionHelperFactories.entries == sectionHelperFactories
      ensures this.valueResolvers == valueResolvers
      ensures this.namespaceResolvers == namespaceResolvers
      ensures this.locators == locators
      ensures this.parse == parse
      ensures templates == map[]
    {
      this.sectionHelperFactories := new FactoryMap(sectionHelperFactories);
      this.valueResolvers := valueResolvers;
      this.namespaceResolvers := namespaceResolvers;
      this.locators := locators;
      this.parse := parse;
      templates := map[];
    }

    /** Hands out the engine's own factory map, not a copy. */
    method GetSectionHelperFactories() returns (factories: FactoryMap<Factory>)
      ensures factories == sectionHelperFactories
    {
      factories := sectionHelperFactories;
    }

    /** Parses an ad-hoc template; the cache is neither read nor written. */
    method Parse(content: string) returns (r: ParseResult<Tpl>)
      ensures r == parse(sectionHelperFactories.entries, content)
    {
      r := parse(sectionHelperFactories.entries, content);
    }

    method PutTemplate(id: string, template: Tpl) returns (previous: Option<Tpl>)
      modifies this`templates
      ensures id in templates && templates[id] == template
      ensures previous == if id in old(templates) then Some(old(templates)[id]) else None
      ensures templates.Keys == old(templates).Keys + {id}
      ensures forall k :: k in old(templates) && k != id ==> templates[k] == old(templates)[k]
    {
      previous := if id in templates then Some(templates[id]) else None;
      templates := templates[id := template];
    }

    /** computeIfAbsent(id, this::load): a cached template is returned without
        consulting any locator; on a miss the result of `load` is stored only
        when it is a template (neither a null nor an exception is cached). */
    method GetTemplate(id: string) returns (r: Outcome<Tpl>, ghost applied: nat)
      modifies this`templates, if id in templates then {} else ReaderToClose(locators, id)
      ensures id in old(templates) ==>
        && r == Returned(old(templates)[id])
        && templates == old(templates)
        && applied == 0
      ensures id !in old(templates) ==>
        && r == LoadOutcome(locators, CurrentParser(), id)
        && templates == (if r.Returned? then old(templates)[id := r.template] else old(templates))
        && applied == Consulted(locators, id)
        && forall rd :: rd in ReaderToClose(locators, id) ==> rd.closed
    {
      if id in templates {
        r, applied := Returned(templates[id]), 0;
      } else {
        r, applied := Load(id);
        if r.Returned? {
          templates := templates[id := r.template];
        }
      }
    }

    method ClearTemplates()
      modifies this`templates
      ensures templates == map[]
    {
      templates := map[];
    }

    /** templates.keySet().removeIf(test) */
    method RemoveTemplates(test: string -> bool)
      modifies this`templates
      ensures forall k :: k in templates <==> k in old(templates) && !test(k)
      ensures forall k :: k in templates ==> templates[k] == old(templates)[k]
    {
      templates := map k | k in templates && !test(k) :: templates[k];
    }

    /** Applies the locators in order until one yields a reader, parses that
        reader and closes it whether or not parsing fails; a failure to close
        does not change the result. Null when no locator yields a reader.
        `applied` counts the locators applied. */
    method Load(id: string) returns (r: Outcome<Tpl>, ghost applied: nat)
      modifies ReaderToClose(locators, id)
      ensures r == LoadOutcome(locators, CurrentParser(), id)
      ensures applied == Consulted(locators, id)
      ensures forall rd :: rd in ReaderToClose(locators, id) ==> rd.closed
    {
      applied := 0;
      for i := 0 to |locators|
        invariant applied == i
        invariant forall j :: 0 <= j < i ==> locators[j](id).None?
      {
        var reader := locators[i](id);
        applied := applied + 1;
        if reader.Some? {
          assert FirstMatch(locators, id) == Some((i, reader.value));
          var parsed := parse(sectionHelperFactories.entries, reader.value.content);
          var ioError := reader.value.Close();
          r := Completed(parsed);
          return;
        }
      }
      r := ReturnedNull;
    }
  }

  /** A factory registered through the getter's map after construction is
      seen by every parser the engine builds from then on. */
  method FactoriesChangeThroughGetter<Tpl, Factory, Resolver, NsResolver>(
    e: EngineImpl<Tpl, Factory, Resolver, NsResolver>, name: string, factory: Factory, text: string)
    returns (r: ParseResult<Tpl>)
    modifies e.sectionHelperFactories
    ensures e.sectionHelperFactories.entries == old(e.sectionHelperFactories.entries)[name := factory]
    ensures r == e.parse(old(e.sectionHelperFactories.entries)[name := factory], text)
  {
    var factories := e.GetSectionHelperFactories();
    factories.entries := factories.entries[name := factory];
    r := e.Parse(text);
  }

  /** putTemplate followed by getTemplate: the template put is returned and no
      locator is consulted. */
  method GetAfterPut<Tpl, Factory, Resolver, NsResolver>(e: EngineImpl<Tpl, Factory, Resolver, NsResolver>, id: string, t: Tpl)
    returns (r: Outcome<Tpl>, ghost applied: nat)
    modifies e
    ensures r == Returned(t) && applied == 0
    ensures e.templates == old(e.templates)[id := t]
  {
    var previous := e.PutTemplate(id, t);
    r, applied := e.GetTemplate(id);
  }

  /** Two calls of getTemplate for the same id: a template once returned is
      cached and served again without consulting any locator; a null or a
      parse failure is not cached, so the second call goes through the
      locators again and ends the same way. */
  method RepeatedGet<Tpl, Factory, Resolver, NsResolver>(e: EngineImpl<Tpl, Factory, Resolver, NsResolver>, id: string)
    returns (first: Outcome<Tpl>, second: Outcome<Tpl>, ghost applied: nat)
    modifies e, ReaderToClose(e.locators, id)
    ensures second == first
    ensures first.Returned? ==> applied == 0 && id in e.templates && e.templates[id] == first.template
    ensures !first.Returned? ==> id !in old(e.templates) && applied == Consulted(e.locators, id)
    ensures !first.Returned? ==> e.templates == old(e.templates)
  {
    ghost var applied1;
    first, applied1 := e.GetTemplate(id);
    second, applied := e.GetTemplate(id);
  }

  /** After removeTemplates with a test that accepts `id`, getTemplate(id)
      loads the template again through the locators. */
  method GetAfterRemove<Tpl, Factory, Resolver, NsResolver>(e: EngineImpl<Tpl, Factory, Resolver, NsResolver>, test: string -> bool, id: string)
    returns (r: Outcome<Tpl>, ghost applied: nat)
    requires test(id)
    modifies e, ReaderToClose(e.locators, id)
    ensures r == LoadOutcome(e.locators, e.CurrentParser(), id)
    ensures applied == Consulted(e.locators, id)
  {
    e.RemoveTemplates(test);
    r, applied := e.GetTemplate(id);
  }

  /** After clearTemplates, every getTemplate loads through the locators. */
  method GetAfterClear<Tpl, Factory, Resolver, NsResolver>(e: EngineImpl<Tpl, Factory, Resolver, NsResolver>, id: string)
    returns (r: Outcome<Tpl>, ghost applied: nat)
    modifies e, ReaderToClose(e.locators, id)
    ensures r == LoadOutcome(e.locators, e.CurrentParser(), id)
    ensures applied == Consulted(e.locators, id)
    ensures e.templates == if r.Returned? then map[id := r.template] else map[]
  {
    e.ClearTemplates();
    r, applied := e.GetTemplate(id);
  }
}
