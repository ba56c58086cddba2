/** The combination handler as a state machine over the three pieces of state
    it touches: the element list, the log list (newest first) and the busy
    flag. The handler suspends once, at the provider call; `Begin` is
    everything before that point and `Resolve` everything after it. */
module Combine {
  import opened Elements
  import opened CombinationKey
  import opened Extraction
  import opened Generation

  datatype World = World(elements: seq<Element>, logs: seq<string>, isGenerating: bool)

  /** What the suspended handler holds on to: the two cards and their key. */
  datatype Pending = Pending(source: Element, target: Element, key: string)

  /** How a call leaves the synchronous part of the handler. */
  datatype Start = Ignored | AlreadyKnown(pair: Pending) | Generating(pair: Pending)

  const FailureLog: string := "The creation failed (Check API Keys or Console). Using backup magic..."

  function KnownLog(p: Pending): string {
    "The combination of " + p.source.name + " and " + p.target.name + " is already known."
  }

  function StartLog(godName: string, p: Pending): string {
    godName + " combined " + p.source.name + " and " + p.target.name + "..."
  }

  function CreatedLog(name: string, planetName: string): string {
    "Created " + name + "! The visual appearance of " + planetName + " is shifting..."
  }

  function NewElement(key: string, c: Candidate): Element {
    Element(key, c.name, c.emoji, c.description)
  }

  /** The guards at the top of the handler: the busy flag, both ids present,
      and whether the canonical key already names a card. */
  function StartOf(w: World, sourceId: string, targetId: string): Start {
    if w.isGenerating then Ignored
    else
      match (Find(w.elements, sourceId), Find(w.elements, targetId))
      case (Some(source), Some(target)) =>
        var p := Pending(source, target, Key(source.id, target.id));
        if Find(w.elements, p.key).Some? then AlreadyKnown(p) else Generating(p)
      case _ => Ignored
  }

  /** The state when the handler returns early or reaches the provider call. */
  function Begin(w: World, godName: string, sourceId: string, targetId: string): World {
    match StartOf(w, sourceId, targetId)
    case Ignored => w
    case AlreadyKnown(p) => w.(logs := [KnownLog(p)] + w.logs)
    case Generating(p) => w.(isGenerating := true, logs := [StartLog(godName, p)] + w.logs)
  }

  /** The state after the provider answered: the rest of the `try` block
      when it completes, the `catch` block (with its delayed fallback
      append) when it throws, and the `finally` that clears the busy flag on
      both. */
  function Resolve(w: World, planetName: string, p: Pending, outcome: ProviderOutcome,
                   parse: string -> ParseResult): World
  {
    var absent := Find(w.elements, p.key).None?;
    var w' :=
      if outcome.Success? && !absent then
        // the check before the append fails; the parsed value is never read
        w.(logs := [KnownLog(p)] + w.logs)
      else
        match TryGenerate(outcome, parse, p.source.name, p.target.name)
        case Some(c) =>
          w.(elements := w.elements + [NewElement(p.key, c)],
             logs := [CreatedLog(c.name, planetName)] + w.logs)
        case None =>
          w.(elements := if absent then w.elements + [NewElement(p.key, EssenceOf(p.source.name, p.target.name))]
                         else w.elements,
             logs := [FailureLog] + w.logs);
    w'.(isGenerating := false)
  }

  /** One whole call of the handler, with the provider's outcome given. */
  function HandleCombine(w: World, godName: string, planetName: string, sourceId: string, targetId: string,
                         outcome: ProviderOutcome, parse: string -> ParseResult): World
  {
    match StartOf(w, sourceId, targetId)
    case Generating(p) => Resolve(Begin(w, godName, sourceId, targetId), planetName, p, outcome, parse)
    case _ => Begin(w, godName, sourceId, targetId)
  }

  /** The log line a novel combination adds last: the creation when the
      `try` block completes, the failure when it throws. */
  function OutcomeLog(tried: Option<Candidate>, planetName: string): string {
    match tried
    case Some(c) => CreatedLog(c.name, planetName)
    case None => FailureLog
  }

  /** While a combination is in flight, or when either id is not on the
      board, a call changes nothing at all. */
  lemma CombineIgnored(w: World, godName: string, planetName: string, sourceId: string, targetId: string,
                       outcome: ProviderOutcome, parse: string -> ParseResult)
    requires w.isGenerating || Find(w.elements, sourceId).None? || Find(w.elements, targetId).None?
    ensures HandleCombine(w, godName, planetName, sourceId, targetId, outcome, parse) == w
  {
  }

  /** A pair whose key already names a card only gains an "already known"
      log; the provider's outcome and the parser play no part. */
  lemma CombineKnownPair(w: World, godName: string, planetName: string, sourceId: string, targetId: string,
                         outcome: ProviderOutcome, parse: string -> ParseResult,
                         outcome': ProviderOutcome, parse': string -> ParseResult)
    requires !w.isGenerating
    requires Find(w.elements, sourceId).Some? && Find(w.elements, targetId).Some?
    requires Find(w.elements, Key(sourceId, targetId)).Some?
    ensures var w1 := HandleCombine(w, godName, planetName, sourceId, targetId, outcome, parse);
            w1.elements == w.elements && !w1.isGenerating
            && w1.logs == [KnownLog(Pending(Find(w.elements, sourceId).value, Find(w.elements, targetId).value,
                                            Key(sourceId, targetId)))] + w.logs
    ensures HandleCombine(w, godName, planetName, sourceId, targetId, outcome, parse)
            == HandleCombine(w, godName, planetName, sourceId, targetId, outcome', parse')
  {
  }

  /** A novel pair appends exactly one card, at the end, whose id is the key
      and whose content is the generated candidate; earlier cards keep their
      values and order. Two log lines are prepended (the start line, then
      the creation or failure line), and the busy flag ends cleared. */
  lemma CombineNovelPair(w: World, godName: string, planetName: string, sourceId: string, targetId: string,
                         outcome: ProviderOutcome, parse: string -> ParseResult)
    requires !w.isGenerating
    requires Find(w.elements, sourceId).Some? && Find(w.elements, targetId).Some?
    requires Find(w.elements, Key(sourceId, targetId)).None?
    ensures var source, target := Find(w.elements, sourceId).value, Find(w.elements, targetId).value;
            var c := Generate(outcome, parse, source.name, target.name);
            var w1 := HandleCombine(w, godName, planetName, sourceId, targetId, outcome, parse);
            && |w1.elements| == |w.elements| + 1
            && w1.elements[..|w.elements|] == w.elements
            && w1.elements[|w.elements|] == NewElement(Key(sourceId, targetId), c)
            && w1.logs == [OutcomeLog(TryGenerate(outcome, parse, source.name, target.name), planetName),
                           StartLog(godName, Pending(source, target, Key(sourceId, targetId)))] + w.logs
            && !w1.isGenerating
  {
    var source, target := Find(w.elements, sourceId).value, Find(w.elements, targetId).value;
    var p := Pending(source, target, Key(sourceId, targetId));
    assert StartOf(w, sourceId, targetId) == Generating(p);
    var w0 := Begin(w, godName, sourceId, targetId);
    assert w0 == World(w.elements, [StartLog(godName, p)] + w.logs, true);
    ResolveNovel(w0, planetName, p, outcome, parse);
    var w1 := Resolve(w0, planetName, p, outcome, parse);
    assert w1.elements[..|w.elements|] == w.elements;
  }

  /** After the request for a key still absent, exactly one card is
      appended (the candidate or the Essence fallback) and the outcome log
      is prepended. */
  lemma ResolveNovel(w: World, planetName: string, p: Pending, outcome: ProviderOutcome,
                     parse: string -> ParseResult)
    requires Find(w.elements, p.key).None?
    ensures var r := Resolve(w, planetName, p, outcome, parse);
            && r.elements == w.elements + [NewElement(p.key, Generate(outcome, parse, p.source.name, p.target.name))]
            && r.logs == [OutcomeLog(TryGenerate(outcome, parse, p.source.name, p.target.name), planetName)] + w.logs
            && !r.isGenerating
  {
  }

  /** On a provider failure the combination still completes: the failure is
      logged and, for a novel pair, an "Essence" card is appended. */
  lemma ProviderFailureFallsBack(w: World, godName: string, planetName: string, sourceId: string, targetId: string,
                                 parse: string -> ParseResult)
    requires !w.isGenerating
    requires Find(w.elements, sourceId).Some? && Find(w.elements, targetId).Some?
    requires Find(w.elements, Key(sourceId, targetId)).None?
    ensures var source, target := Find(w.elements, sourceId).value, Find(w.elements, targetId).value;
            var w1 := HandleCombine(w, godName, planetName, sourceId, targetId, Failure, parse);
            && w1.elements == w.elements + [Element(Key(sourceId, targetId), "Essence of " + source.name + " & " + target.name,
                                                    Sparkles, EssenceDescription)]
            && w1.logs[0] == FailureLog && !w1.isGenerating
  {
  }

  /** When the response does not parse, the combination still completes
      with a "Manifestation" card whose description is the start of the raw
      response, and it is logged as created. */
  lemma ParseFailureFallsBack(w: World, godName: string, planetName: string, sourceId: string, targetId: string,
                              response: string, parse: string -> ParseResult)
    requires !w.isGenerating
    requires Find(w.elements, sourceId).Some? && Find(w.elements, targetId).Some?
    requires Find(w.elements, Key(sourceId, targetId)).None?
    requires parse(Extract(response)) == SyntaxError
    ensures var source, target := Find(w.elements, sourceId).value, Find(w.elements, targetId).value;
            var name := "Manifestation of " + source.name + " & " + target.name;
            var w1 := HandleCombine(w, godName, planetName, sourceId, targetId, Success(response), parse);
            && w1.elements == w.elements + [Element(Key(sourceId, targetId), name, Sparkles, Prefix(response, 50) + "...")]
            && w1.logs[0] == CreatedLog(name, planetName) && !w1.isGenerating
  {
    var source, target := Find(w.elements, sourceId).value, Find(w.elements, targetId).value;
    CombineNovelPair(w, godName, planetName, sourceId, targetId, Success(response), parse);
    var w1 := HandleCombine(w, godName, planetName, sourceId, targetId, Success(response), parse);
    assert w1.elements == w.elements + [w1.elements[|w.elements|]];
  }

  /** A started request holds the busy flag, so every later call is
      ignored until it resolves, and its key names no card: with no other
      writer in between, the existence re-checks after the request always
      find the key absent. */
  lemma BeginHoldsBusyFlag(w: World, godName: string, sourceId: string, targetId: string,
                           sourceId': string, targetId': string)
    requires StartOf(w, sourceId, targetId).Generating?
    ensures var w1 := Begin(w, godName, sourceId, targetId);
            && w1.isGenerating && w1.elements == w.elements
            && StartOf(w1, sourceId', targetId') == Ignored
            && Find(w1.elements, StartOf(w, sourceId, targetId).pair.key).None?
  {
  }

  /** A response that parses to `null` ends like a failed request: reading
      `name` of `null` throws inside the outer `try`, so the failure log and
      the Essence card follow. */
  lemma NullParseFallsBack(w: World, godName: string, planetName: string, sourceId: string, targetId: string,
                           response: string, parse: string -> ParseResult)
    requires parse(Extract(response)) == Null
    ensures HandleCombine(w, godName, planetName, sourceId, targetId, Success(response), parse)
            == HandleCombine(w, godName, planetName, sourceId, targetId, Failure, parse)
  {
  }

  /** When the request succeeded but the key names a card by the time the
      answer is in, the `try` block logs "already known" and appends
      nothing, whatever the parser gave: the parsed value is never read. */
  lemma ResolveRechecksKey(w: World, planetName: string, p: Pending, response: string,
                           parse: string -> ParseResult)
    requires Find(w.elements, p.key).Some?
    ensures Resolve(w, planetName, p, Success(response), parse)
            == World(w.elements, [KnownLog(p)] + w.logs, false)
  {
  }

  /** The busy flag never outlives a call: a call that starts idle ends idle. */
  lemma CombineClearsBusyFlag(w: World, godName: string, planetName: string, sourceId: string, targetId: string,
                              outcome: ProviderOutcome, parse: string -> ParseResult)
    requires !w.isGenerating
    ensures !HandleCombine(w, godName, planetName, sourceId, targetId, outcome, parse).isGenerating
  {
  }

  /** The element list only grows, by at most one card, at the end. */
  lemma CombineAppendOnly(w: World, godName: string, planetName: string, sourceId: string, targetId: string,
                          outcome: ProviderOutcome, parse: string -> ParseResult)
    ensures var es := HandleCombine(w, godName, planetName, sourceId, targetId, outcome, parse).elements;
            w.elements <= es && |es| <= |w.elements| + 1
  {
  }

  /** Every append is guarded by an absence check on the new id, so ids stay
      pairwise distinct. */
  lemma CombinePreservesUniqueIds(w: World, godName: string, planetName: string, sourceId: string, targetId: string,
                                  outcome: ProviderOutcome, parse: string -> ParseResult)
    requires UniqueIds(w.elements)
    ensures UniqueIds(HandleCombine(w, godName, planetName, sourceId, targetId, outcome, parse).elements)
  {
    var es := HandleCombine(w, godName, planetName, sourceId, targetId, outcome, parse).elements;
    if |es| != |w.elements| {
      var p := StartOf(w, sourceId, targetId).pair;
      assert es == w.elements + [es[|w.elements|]] && es[|w.elements|].id == p.key;
    }
  }

  /** After a call on two cards that are on the board (and no call in
      flight), a card with the pair's key is on the board, whatever the
      provider did. */
  lemma CombineRecordsKey(w: World, godName: string, planetName: string, sourceId: string, targetId: string,
                          outcome: ProviderOutcome, parse: string -> ParseResult)
    requires !w.isGenerating
    requires Find(w.elements, sourceId).Some? && Find(w.elements, targetId).Some?
    ensures var es := HandleCombine(w, godName, planetName, sourceId, targetId, outcome, parse).elements;
            Find(es, Key(sourceId, targetId)).Some? && Find(es, sourceId).Some? && Find(es, targetId).Some?
  {
    var w1 := HandleCombine(w, godName, planetName, sourceId, targetId, outcome, parse);
    if |w1.elements| != |w.elements| {
      var e := w1.elements[|w.elements|];
      assert w1.elements == w.elements + [e];
      FindAppend(w.elements, e, sourceId);
      FindAppend(w.elements, e, targetId);
      FindAppend(w.elements, e, Key(sourceId, targetId));
    }
  }

  /** Re-combining is idempotent and order-blind: combining A with B and
      then B with A adds at most one card, and exactly one when the pair
      was new; the second call never reaches the provider. */
  lemma CombineBothOrders(w: World, godName: string, planetName: string, a: string, b: string,
                          outcome: ProviderOutcome, parse: string -> ParseResult,
                          outcome': ProviderOutcome, parse': string -> ParseResult)
    requires !w.isGenerating
    requires Find(w.elements, a).Some? && Find(w.elements, b).Some?
    ensures var w1 := HandleCombine(w, godName, planetName, a, b, outcome, parse);
            var w2 := HandleCombine(w1, godName, planetName, b, a, outcome', parse');
            && w2.elements == w1.elements
            && |w2.elements| == |w.elements| + (if Find(w.elements, Key(a, b)).None? then 1 else 0)
  {
    var w1 := HandleCombine(w, godName, planetName, a, b, outcome, parse);
    CombineRecordsKey(w, godName, planetName, a, b, outcome, parse);
    CombineClearsBusyFlag(w, godName, planetName, a, b, outcome, parse);
    KeyCommutative(a, b);
    CombineKnownPair(w1, godName, planetName, b, a, outcome', parse', outcome', parse');
    if Find(w.elements, Key(a, b)).None? {
      CombineNovelPair(w, godName, planetName, a, b, outcome, parse);
    }
  }

  /** A card a search found before a call is still the card it finds after. */
  lemma CombineKeepsFound(w: World, godName: string, planetName: string, sourceId: string, targetId: string,
                          outcome: ProviderOutcome, parse: string -> ParseResult, id: string)
    requires Find(w.elements, id).Some?
    ensures Find(HandleCombine(w, godName, planetName, sourceId, targetId, outcome, parse).elements, id)
            == Find(w.elements, id)
  {
    var es := HandleCombine(w, godName, planetName, sourceId, targetId, outcome, parse).elements;
    CombineAppendOnly(w, godName, planetName, sourceId, targetId, outcome, parse);
    if |es| != |w.elements| {
      assert es == w.elements + [es[|w.elements|]];
      FindAppend(w.elements, es[|w.elements|], id);
    }
  }

  /** A search after a novel pair's call: old hits stay, the key now finds
      the appended card, and every other id still finds nothing. */
  lemma NovelPairFind(w: World, godName: string, planetName: string, sourceId: string, targetId: string,
                      outcome: ProviderOutcome, parse: string -> ParseResult, id: string)
    requires !w.isGenerating
    requires Find(w.elements, sourceId).Some? && Find(w.elements, targetId).Some?
    requires Find(w.elements, Key(sourceId, targetId)).None?
    ensures var w1 := HandleCombine(w, godName, planetName, sourceId, targetId, outcome, parse);
            && !w1.isGenerating && |w1.elements| == |w.elements| + 1
            && Find(w1.elements, id) == if Find(w.elements, id).Some? then Find(w.elements, id)
                                       else if id == Key(sourceId, targetId) then Some(w1.elements[|w.elements|])
                                       else None
  {
    var w1 := HandleCombine(w, godName, planetName, sourceId, targetId, outcome, parse);
    CombineNovelPair(w, godName, planetName, sourceId, targetId, outcome, parse);
    assert w1.elements == w.elements + [w1.elements[|w.elements|]];
    FindAppend(w.elements, w1.elements[|w.elements|], id);
  }

  /** The keys of the four combinations of the collision run. */
  lemma CollisionKeys()
    ensures Key("earth", "water") == "earth-water"
    ensures Key("air", "earth") == "air-earth"
    ensures Key("air", "earth-water") == Key("air-earth", "water") == "air-earth-water"
  {
    assert LessEq("earth", "water") && LessEq("air", "earth") && LessEq("air", "earth-water");
    assert LessEq("air-earth", "water");
  }

  /** The collision run from any idle board that holds Air, Earth and Water
      and none of the three derived ids: Earth with Water, Air with Earth and
      Air with Earth-Water each add a card, and then Air-Earth with Water, a
      pair never combined before, adds nothing, whatever the provider answers. */
  lemma DashedCollisionFrom(w0: World, godName: string, planetName: string, parse: string -> ParseResult,
                            o1: ProviderOutcome, o2: ProviderOutcome, o3: ProviderOutcome, o4: ProviderOutcome)
    requires !w0.isGenerating
    requires Find(w0.elements, "air").Some? && Find(w0.elements, "earth").Some? && Find(w0.elements, "water").Some?
    requires Find(w0.elements, "earth-water").None? && Find(w0.elements, "air-earth").None?
    requires Find(w0.elements, "air-earth-water").None?
    ensures var w1 := HandleCombine(w0, godName, planetName, "earth", "water", o1, parse);
            var w2 := HandleCombine(w1, godName, planetName, "air", "earth", o2, parse);
            var w3 := HandleCombine(w2, godName, planetName, "air", "earth-water", o3, parse);
            && |w3.elements| == |w0.elements| + 3
            && Find(w3.elements, "air-earth").Some? && Find(w3.elements, "water").Some?
            && HandleCombine(w3, godName, planetName, "air-earth", "water", o4, parse).elements == w3.elements
  {
    var w1 := HandleCombine(w0, godName, planetName, "earth", "water", o1, parse);
    var w2 := HandleCombine(w1, godName, planetName, "air", "earth", o2, parse);
    var w3 := HandleCombine(w2, godName, planetName, "air", "earth-water", o3, parse);
    CollisionKeys();
    NovelPairFind(w0, godName, planetName, "earth", "water", o1, parse, "air");
    NovelPairFind(w0, godName, planetName, "earth", "water", o1, parse, "earth");
    NovelPairFind(w0, godName, planetName, "earth", "water", o1, parse, "water");
    NovelPairFind(w0, godName, planetName, "earth", "water", o1, parse, "air-earth");
    NovelPairFind(w0, godName, planetName, "earth", "water", o1, parse, "earth-water");
    NovelPairFind(w0, godName, planetName, "earth", "water", o1, parse, "air-earth-water");
    NovelPairFind(w1, godName, planetName, "air", "earth", o2, parse, "air");
    NovelPairFind(w1, godName, planetName, "air", "earth", o2, parse, "water");
    NovelPairFind(w1, godName, planetName, "air", "earth", o2, parse, "air-earth");
    NovelPairFind(w1, godName, planetName, "air", "earth", o2, parse, "earth-water");
    NovelPairFind(w1, godName, planetName, "air", "earth", o2, parse, "air-earth-water");
    NovelPairFind(w2, godName, planetName, "air", "earth-water", o3, parse, "air-earth");
    NovelPairFind(w2, godName, planetName, "air", "earth-water", o3, parse, "water");
    NovelPairFind(w2, godName, planetName, "air", "earth-water", o3, parse, "air-earth-water");
    CombineKnownPair(w3, godName, planetName, "air-earth", "water", o4, parse, o4, parse);
  }

  /** The collision run is reachable from the default board. */
  lemma DashedCollisionReachable(godName: string, planetName: string, parse: string -> ParseResult,
                                 o1: ProviderOutcome, o2: ProviderOutcome, o3: ProviderOutcome, o4: ProviderOutcome)
    ensures var w0 := World(Primitives, [], false);
            var w1 := HandleCombine(w0, godName, planetName, "earth", "water", o1, parse);
            var w2 := HandleCombine(w1, godName, planetName, "air", "earth", o2, parse);
            var w3 := HandleCombine(w2, godName, planetName, "air", "earth-water", o3, parse);
            && |w3.elements| == |Primitives| + 3
            && HandleCombine(w3, godName, planetName, "air-earth", "water", o4, parse).elements == w3.elements
  {
    assert Find(Primitives, "air").Some? && Find(Primitives, "earth").Some? && Find(Primitives, "water").Some?;
    assert Find(Primitives, "earth-water").None? && Find(Primitives, "air-earth").None?;
    assert Find(Primitives, "air-earth-water").None?;
    DashedCollisionFrom(World(Primitives, [], false), godName, planetName, parse, o1, o2, o3, o4);
  }

  /** The handler as a drop reaches it when the drop target keeps the
      handler closure of the render in which its card was mounted: every
      read (the busy flag, the three searches, the two re-checks) sees that
      render's snapshot `seen`, while every write is an update of the
      current state (`setElements(prev => [...prev, x])`, `setLogs`). The
      re-checks read the same snapshot as the first check, so they pass. */
  function CombineSeen(seen: World, current: World, godName: string, planetName: string,
                       sourceId: string, targetId: string,
                       outcome: ProviderOutcome, parse: string -> ParseResult): World
  {
    match StartOf(seen, sourceId, targetId)
    case Ignored => current
    case AlreadyKnown(p) => current.(logs := [KnownLog(p)] + current.logs)
    case Generating(p) =>
      var logs := [StartLog(godName, p)] + current.logs;
      match TryGenerate(outcome, parse, p.source.name, p.target.name)
      case Some(c) =>
        World(current.elements + [NewElement(p.key, c)], [CreatedLog(c.name, planetName)] + logs, false)
      case None =>
        World(current.elements + [NewElement(p.key, EssenceOf(p.source.name, p.target.name))],
              [FailureLog] + logs, false)
  }

  /** On an up-to-date snapshot the closure-bound handler is the handler. */
  lemma CombineSeenOnCurrentState(w: World, godName: string, planetName: string, sourceId: string, targetId: string,
                                  outcome: ProviderOutcome, parse: string -> ParseResult)
    ensures CombineSeen(w, w, godName, planetName, sourceId, targetId, outcome, parse)
            == HandleCombine(w, godName, planetName, sourceId, targetId, outcome, parse)
  {
  }

  /** On the default board, dropping Water on Air twice through the Air
      card's mount-time handler appends two cards with the id air-water. */
  lemma StaleDropDuplicatesId(godName: string, planetName: string,
                              o1: ProviderOutcome, p1: string -> ParseResult,
                              o2: ProviderOutcome, p2: string -> ParseResult)
    ensures var w0 := World(Primitives, [], false);
            var w1 := CombineSeen(w0, w0, godName, planetName, "water", "air", o1, p1);
            var w2 := CombineSeen(w0, w1, godName, planetName, "water", "air", o2, p2);
            && |w2.elements| == |Primitives| + 2
            && w2.elements[4].id == w2.elements[5].id == "air-water"
            && !UniqueIds(w2.elements)
  {
    assert LessEq("air", "water") && !LessEq("water", "air");
    assert Key("water", "air") == "air-water";
    assert Find(Primitives, "air-water").None?;
  }

  /** Through the same mount-time handler, a card created after the mount
      cannot be combined: dropping the new air-water card on Air is ignored. */
  lemma StaleDropIgnoresNewCard(godName: string, planetName: string,
                                o1: ProviderOutcome, p1: string -> ParseResult,
                                o2: ProviderOutcome, p2: string -> ParseResult)
    ensures var w0 := World(Primitives, [], false);
            var w1 := CombineSeen(w0, w0, godName, planetName, "water", "air", o1, p1);
            && Find(w1.elements, "air-water").Some?
            && CombineSeen(w0, w1, godName, planetName, "air-water", "air", o2, p2) == w1
  {
    assert LessEq("air", "water") && !LessEq("water", "air");
    assert Find(Primitives, "air-water").None?;
    var w0 := World(Primitives, [], false);
    var w1 := CombineSeen(w0, w0, godName, planetName, "water", "air", o1, p1);
    FindAppend(Primitives, w1.elements[4], "air-water");
    assert w1.elements == Primitives + [w1.elements[4]];
  }
}
