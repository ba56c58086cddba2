/** The game screen's combination state and its handler. The handler runs in
    two steps split at the provider request: `Begin` (the guards, the busy
    flag, the first log line) and `Resolve` (parsing, the append, the
    fallbacks, clearing the flag). `HandleCombine` runs both for one drop,
    and `Drop` is the card's drop target, which ignores a card dropped on
    itself. */
module Screen {
  import opened Elements
  import opened CombinationKey
  import opened Generation
  import opened Combine

  class GameScreen {
    const godName: string
    const planetName: string
    const powers: string

    var elements: seq<Element>
    var logs: seq<string>
    var isGenerating: bool
    /** The suspended handler's cards and key while the request is out. */
    var pending: Option<Pending>

    /** The busy flag is set exactly while a request is out. */
    ghost predicate Valid()
      reads this
    {
      isGenerating <==> pending.Some?
    }

    function State(): World
      reads this
    {
      World(elements, logs, isGenerating)
    }

    /** A fresh screen shows the saved list when one is passed, else the
        four primitives; no logs, nothing in flight. */
    constructor (godName: string, planetName: string, powers: string, initialElements: Option<seq<Element>>)
      ensures Valid()
      ensures this.godName == godName && this.planetName == planetName && this.powers == powers
      ensures elements == (if initialElements.Some? then initialElements.value else Primitives)
      ensures logs == [] && !isGenerating
    {
      this.godName, this.planetName, this.powers := godName, planetName, powers;
      elements := if initialElements.Some? then initialElements.value else Primitives;
      logs := [];
      isGenerating := false;
      pending := None;
    }

    /** The handler up to the provider request. Returns whether a request
        is now out. */
    method Begin(sourceId: string, targetId: string) returns (started: bool)
      requires Valid()
      modifies this
      ensures Valid()
      ensures State() == Combine.Begin(old(State()), godName, sourceId, targetId)
      ensures started <==> StartOf(old(State()), sourceId, targetId).Generating?
      ensures pending == if started then Some(StartOf(old(State()), sourceId, targetId).pair) else old(pending)
    {
      if isGenerating {
        return false;
      }
      var source := FindById(elements, sourceId);
      var target := FindById(elements, targetId);
      if source.None? || target.None? {
        return false;
      }
      var key := Key(source.value.id, target.value.id);
      var p := Pending(source.value, target.value, key);
      var existing := FindById(elements, key);
      if existing.Some? {
        logs := [KnownLog(p)] + logs;
        return false;
      }
      isGenerating := true;
      logs := [StartLog(godName, p)] + logs;
      pending := Some(p);
      started := true;
    }

    /** The handler after the provider answered, with `parse` standing for
        `JSON.parse`: the `try` block's existence check and append, or on a
        throw the `catch` block's fallback append, then the `finally`. */
    method Resolve(outcome: ProviderOutcome, parse: string -> ParseResult)
      requires Valid() && pending.Some?
      modifies this
      ensures Valid() && pending.None?
      ensures State() == Combine.Resolve(old(State()), planetName, old(pending).value, outcome, parse)
    {
      var p := pending.value;
      var tried := TryGenerate(outcome, parse, p.source.name, p.target.name);
      var failed := true;
      if outcome.Success? {
        var existing := FindById(elements, p.key);
        if existing.Some? {
          logs := [KnownLog(p)] + logs;
          failed := false;
        } else if tried.Some? {
          elements := elements + [NewElement(p.key, tried.value)];
          logs := [CreatedLog(tried.value.name, planetName)] + logs;
          failed := false;
        }
      }
      if failed {
        logs := [FailureLog] + logs;
        var existing := FindById(elements, p.key);
        if existing.None? {
          elements := elements + [NewElement(p.key, EssenceOf(p.source.name, p.target.name))];
        }
      }
      isGenerating := false;
      pending := None;
    }

    /** One whole call of the handler, the provider's outcome given. A call
        made while another is in flight is dropped without any effect. */
    method HandleCombine(sourceId: string, targetId: string, outcome: ProviderOutcome,
                         parse: string -> ParseResult)
      requires Valid()
      modifies this
      ensures Valid()
      ensures State() == Combine.HandleCombine(old(State()), godName, planetName, sourceId, targetId, outcome, parse)
      ensures pending == old(pending)
    {
      var started := Begin(sourceId, targetId);
      if started {
        Resolve(outcome, parse);
      }
    }

    /** The card's drop target: a card dropped on itself is ignored. */
    method Drop(draggedId: string, targetId: string, outcome: ProviderOutcome,
                parse: string -> ParseResult)
      requires Valid()
      modifies this
      ensures Valid()
      ensures State() == if draggedId == targetId then old(State())
                         else Combine.HandleCombine(old(State()), godName, planetName, draggedId, targetId, outcome, parse)
      ensures pending == old(pending)
    {
      if draggedId != targetId {
        HandleCombine(draggedId, targetId, outcome, parse);
      }
    }
  }
}
