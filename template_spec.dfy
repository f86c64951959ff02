/**
 * Reference semantics of the `${name}` template language: where placeholders
 * open and close, how a text splits into literal fragments ("shards") and
 * identifiers, how the pieces join back into the text, and what compiling
 * the pieces against a substitution map produces.
 */
module TemplateSpec {
  import opened Results

  datatype ParseError = PlaceholderNotClosed

  datatype CompileError = MissingSubstitution(identifier: string)

  /** The two sequences a template is made of: |shards| == |identifiers| + 1 when parsed. */
  datatype Pieces = Pieces(shards: seq<string>, identifiers: seq<string>)

  /** How many placeholders the scan opens and how many it closes. */
  datatype Tally = Tally(opens: nat, closes: nat)

  /** The two characters "${" start at index i of t. */
  predicate OpensAt(t: string, i: int)
  {
    0 <= i && i + 1 < |t| && t[i] == '$' && t[i + 1] == '{'
  }

  /** s contains the two-character sequence "${" somewhere. */
  predicate HasOpening(s: string)
  {
    exists i | 0 <= i < |s| :: OpensAt(s, i)
  }

  /** Some "${" at or after b has no '}' anywhere after it. */
  ghost predicate UnclosedFrom(t: string, b: nat)
  {
    exists i :: b <= i && OpensAt(t, i) && '}' !in t[i + 2..]
  }

  /** The first "${" at or after index `from`. */
  function FindOpen(t: string, from: nat): (r: Option<nat>)
    decreases |t| - from
    ensures r.Some? ==> from <= r.value && OpensAt(t, r.value)
    ensures forall i :: from <= i && (r.None? || i < r.value) ==> !OpensAt(t, i)
  {
    if from + 1 >= |t| then None
    else if t[from] == '$' && t[from + 1] == '{' then Some(from)
    else FindOpen(t, from + 1)
  }

  /** The first '}' at or after index `from`. */
  function FindClose(t: string, from: nat): (r: Option<nat>)
    decreases |t| - from
    ensures r.Some? ==> from <= r.value < |t| && t[r.value] == '}'
    ensures forall i :: from <= i < |t| && (r.None? || i < r.value) ==> t[i] != '}'
  {
    if from >= |t| then None
    else if t[from] == '}' then Some(from)
    else FindClose(t, from + 1)
  }

  function ConsShard(s: string, r: Result<Pieces, ParseError>): Result<Pieces, ParseError>
  {
    match r
    case Ok(p) => Ok(Pieces([s] + p.shards, p.identifiers))
    case Err(e) => Err(e)
  }

  function ConsIdentifier(s: string, r: Result<Pieces, ParseError>): Result<Pieces, ParseError>
  {
    match r
    case Ok(p) => Ok(Pieces(p.shards, [s] + p.identifiers))
    case Err(e) => Err(e)
  }

  /**
   * The pieces of t[b..] when a fragment starts at b: the fragment runs up to
   * the next "${", the identifier after it up to the next '}'.
   */
  function SplitFrom(t: string, b: nat): Result<Pieces, ParseError>
    requires b <= |t|
    decreases |t| - b, 1
  {
    match FindOpen(t, b)
    case None => Ok(Pieces([t[b..]], []))
    case Some(i) => ConsShard(t[b..i], IdentFrom(t, i + 2))
  }

  /** The pieces of t[k..] when an identifier starts at k (just after a "${"). */
  function IdentFrom(t: string, k: nat): Result<Pieces, ParseError>
    requires k <= |t|
    decreases |t| - k, 0
  {
    match FindClose(t, k)
    case None => Err(PlaceholderNotClosed)
    case Some(j) => ConsIdentifier(t[k..j], SplitFrom(t, j + 1))
  }

  /** The parse of a whole template text. */
  function Split(t: string): Result<Pieces, ParseError>
  {
    SplitFrom(t, 0)
  }

  function TallyFrom(t: string, b: nat): Tally
    requires b <= |t|
    decreases |t| - b, 1
  {
    match FindOpen(t, b)
    case None => Tally(0, 0)
    case Some(i) =>
      var r := TallyInside(t, i + 2);
      Tally(r.opens + 1, r.closes)
  }

  function TallyInside(t: string, k: nat): Tally
    requires k <= |t|
    decreases |t| - k, 0
  {
    match FindClose(t, k)
    case None => Tally(0, 0)
    case Some(j) =>
      var r := TallyFrom(t, j + 1);
      Tally(r.opens, r.closes + 1)
  }

  /** Number of placeholders the scan of t opens ("${" met outside a placeholder). */
  function Openings(t: string): nat
  {
    TallyFrom(t, 0).opens
  }

  /** Number of placeholders the scan of t closes. */
  function Closings(t: string): nat
  {
    TallyFrom(t, 0).closes
  }

  /** The template text that a fragment/identifier sequence stands for. */
  function Join(shards: seq<string>, identifiers: seq<string>): string
    requires |shards| == |identifiers| + 1
    decreases |identifiers|
  {
    if identifiers == [] then shards[0]
    else shards[0] + "${" + identifiers[0] + "}" + Join(shards[1..], identifiers[1..])
  }

  /** Pieces that Join can put together and Split takes apart again. */
  predicate WellFormed(p: Pieces)
  {
    |p.shards| == |p.identifiers| + 1 &&
    (forall k :: 0 <= k < |p.shards| ==> !HasOpening(p.shards[k])) &&
    (forall k :: 0 <= k < |p.identifiers| ==> '}' !in p.identifiers[k])
  }

  function Prefix(s: string, r: Result<string, CompileError>): Result<string, CompileError>
  {
    match r
    case Ok(x) => Ok(s + x)
    case Err(e) => Err(e)
  }

  /**
   * Compiling: every shard in order, each followed by the value of the
   * identifier at the same position while identifiers remain.
   */
  function Interpolate(shards: seq<string>, identifiers: seq<string>, values: map<string, string>): Result<string, CompileError>
    decreases |shards|
  {
    if shards == [] then Ok("")
    else if identifiers == [] then Prefix(shards[0], Interpolate(shards[1..], [], values))
    else if identifiers[0] !in values then Err(MissingSubstitution(identifiers[0]))
    else Prefix(shards[0] + values[identifiers[0]], Interpolate(shards[1..], identifiers[1..], values))
  }
}
