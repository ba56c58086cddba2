/** What the handler turns the provider's answer into: the parsed candidate,
    or one of its two local fallbacks. The provider call and `JSON.parse`
    are inputs: `ProviderOutcome` is what the awaited request produced, and
    `parse` is the foreign parser, which yields an object with the three
    fields, throws a syntax error, or yields `null`. */
module Generation {
  import opened Elements
  import opened Extraction

  /** The `{name, emoji, description}` object the provider is asked for. */
  datatype Candidate = Candidate(name: string, emoji: string, description: string)

  /** The awaited request either threw (missing credentials, network, HTTP
      error) or delivered the response text. */
  datatype ProviderOutcome = Failure | Success(response: string)

  /** What `JSON.parse` gives back: an object carrying the three fields, a
      thrown syntax error, or the value `null`. */
  datatype ParseResult = Parsed(candidate: Candidate) | SyntaxError | Null

  const Sparkles: string := "\U{2728}"
  const EssenceDescription: string := "A new manifestation created by your will."

  /** `s.substring(0, n)`: at most the first `n` characters. */
  function Prefix(s: string, n: nat): (p: string)
    ensures |p| == if |s| <= n then |s| else n
    ensures p <= s
  {
    if |s| <= n then s else s[..n]
  }

  /** Parse-failure fallback: a "Manifestation" of the two names whose
      description is the start of the raw response followed by an ellipsis. */
  function ManifestationOf(response: string, sourceName: string, targetName: string): Candidate {
    Candidate("Manifestation of " + sourceName + " & " + targetName, Sparkles,
              Prefix(response, 50) + "...")
  }

  /** Provider-failure fallback: an "Essence" of the two names with a fixed text. */
  function EssenceOf(sourceName: string, targetName: string): Candidate {
    Candidate("Essence of " + sourceName + " & " + targetName, Sparkles, EssenceDescription)
  }

  /** The outer `try` block when it reaches the append: the candidate it
      builds, or `None` when it throws. It throws when the request failed,
      and when the parsed value is `null`, because reading `name` of `null`
      is a type error (that read happens only once the key was found absent);
      a syntax error is caught inside and becomes a Manifestation. */
  function TryGenerate(outcome: ProviderOutcome, parse: string -> ParseResult,
                       sourceName: string, targetName: string): Option<Candidate>
  {
    match outcome
    case Failure => None
    case Success(response) =>
      match parse(Extract(response))
      case Parsed(c) => Some(c)
      case SyntaxError => Some(ManifestationOf(response, sourceName, targetName))
      case Null => None
  }

  /** The candidate a novel combination appends: the `try` block's, or the
      Essence fallback of the `catch` block. */
  function Generate(outcome: ProviderOutcome, parse: string -> ParseResult,
                    sourceName: string, targetName: string): Candidate
  {
    match TryGenerate(outcome, parse, sourceName, targetName)
    case Some(c) => c
    case None => EssenceOf(sourceName, targetName)
  }

  /** The Manifestation's description is the response's first
      min(50, |response|) characters and "...": never longer than 53. */
  lemma ManifestationDescription(response: string, sourceName: string, targetName: string)
    ensures var d := ManifestationOf(response, sourceName, targetName).description;
            |d| <= 53 && |d| == (if |response| < 50 then |response| else 50) + 3
            && d[..|d| - 3] <= response && d[|d| - 3..] == "..."
  {
    var d := ManifestationOf(response, sourceName, targetName).description;
    assert d == Prefix(response, 50) + "...";
    assert d[..|d| - 3] == Prefix(response, 50);
  }
}
