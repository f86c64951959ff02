/**
 * The character-pair scanning rule shared by the three scans of a template
 * literal: a placeholder opens when the previous character is '$', the
 * current one is '{' and no placeholder is open; it closes at the first '}'
 * while open. ScanState says what the scanner's variables mean in terms of
 * the reference split; ScanOpen, ScanClose and ScanOther prove that each
 * step of the rule keeps it, and ShardScan and IdentifierScan add what the
 * two array-filling scans have written so far.
 */
module Scanning {
  import opened Results
  import opened TemplateSpec
  import opened TemplateLemmas

  /** The scan rule's opening test on the pair (prev, c). */
  predicate Opens(inside: bool, prev: char, c: char)
  {
    !inside && prev == '$' && c == '{'
  }

  /** The scan rule's closing test on c. */
  predicate Closes(inside: bool, c: char)
  {
    inside && c == '}'
  }

  /**
   * After reading t[..pos]: prev is the last character read ('\0' before the
   * first one) and `start` is where the current fragment (outside a
   * placeholder) or identifier (inside one) began. Outside, no "${" lies
   * wholly in t[start..pos] and a fragment never starts just after a '$';
   * inside, no '}' has been read since `start`.
   */
  ghost predicate ScanState(t: string, pos: nat, prev: char, inside: bool, start: nat)
  {
    start <= pos <= |t| &&
    prev == (if pos == 0 then '\0' else t[pos - 1]) &&
    if inside then
      forall i :: start <= i < pos ==> t[i] != '}'
    else
      (pos == start ==> prev != '$') &&
      forall i :: start <= i && i + 1 < pos ==> !OpensAt(t, i)
  }

  /** The reference pieces of what remains from `start`. */
  function Rest(t: string, inside: bool, start: nat): Result<Pieces, ParseError>
    requires start <= |t|
  {
    if inside then IdentFrom(t, start) else SplitFrom(t, start)
  }

  /** The reference counts of what remains from `start`. */
  function RestTally(t: string, inside: bool, start: nat): Tally
    requires start <= |t|
  {
    if inside then TallyInside(t, start) else TallyFrom(t, start)
  }

  lemma ScanStart(t: string)
    ensures ScanState(t, 0, '\0', false, 0)
    ensures Rest(t, false, 0) == Split(t)
    ensures RestTally(t, false, 0) == Tally(Openings(t), Closings(t))
  {
  }

  /** A step of the scanning rule that opens a placeholder at c = t[pos]. */
  lemma ScanOpen(t: string, pos: nat, prev: char, start: nat)
    requires ScanState(t, pos, prev, false, start) && pos < |t|
    requires Opens(false, prev, t[pos])
    ensures 1 <= pos && start <= pos - 1
    ensures ScanState(t, pos + 1, t[pos], true, pos + 1)
    ensures Rest(t, false, start) == ConsShard(t[start..pos - 1], Rest(t, true, pos + 1))
    ensures RestTally(t, false, start) ==
      Tally(RestTally(t, true, pos + 1).opens + 1, RestTally(t, true, pos + 1).closes)
  {
    FindOpenIs(t, start, pos - 1);
  }

  /** A step of the scanning rule that closes a placeholder at c = t[pos]. */
  lemma ScanClose(t: string, pos: nat, prev: char, start: nat)
    requires ScanState(t, pos, prev, true, start) && pos < |t|
    requires Closes(true, t[pos])
    ensures ScanState(t, pos + 1, t[pos], false, pos + 1)
    ensures Rest(t, true, start) == ConsIdentifier(t[start..pos], Rest(t, false, pos + 1))
    ensures RestTally(t, true, start) ==
      Tally(RestTally(t, false, pos + 1).opens, RestTally(t, false, pos + 1).closes + 1)
  {
    FindCloseIs(t, start, pos);
  }

  /** A step of the scanning rule that neither opens nor closes. */
  lemma ScanOther(t: string, pos: nat, prev: char, inside: bool, start: nat)
    requires ScanState(t, pos, prev, inside, start) && pos < |t|
    requires !Opens(inside, prev, t[pos]) && !Closes(inside, t[pos])
    ensures ScanState(t, pos + 1, t[pos], inside, start)
  {

  }

  /** At the end of the text nothing more opens or closes. */
  lemma ScanEnd(t: string, prev: char, inside: bool, start: nat)
    requires ScanState(t, |t|, prev, inside, start)
    ensures inside ==> Rest(t, true, start) == Err(PlaceholderNotClosed) && RestTally(t, true, start) == Tally(0, 0)
    ensures !inside ==> Rest(t, false, start) == Ok(Pieces([t[start..]], [])) && RestTally(t, false, start) == Tally(0, 0)
  {
    if inside {
      assert FindClose(t, start).None?;
    } else {
      assert FindOpen(t, start).None?;
    }
  }

  /** The shards cut out so far, followed by the reference shards of what remains, are the shards of t. */
  ghost predicate ShardsSoFar(t: string, inside: bool, start: nat, done: seq<string>)
    requires start <= |t|
  {
    Split(t).Ok? == Rest(t, inside, start).Ok? &&
    (Split(t).Ok? ==> Split(t).value.shards == done + Rest(t, inside, start).value.shards)
  }

  /** The identifiers cut out so far, followed by the reference identifiers of what remains, are those of t. */
  ghost predicate IdentifiersSoFar(t: string, inside: bool, start: nat, done: seq<string>)
    requires start <= |t|
  {
    Split(t).Ok? == Rest(t, inside, start).Ok? &&
    (Split(t).Ok? ==> Split(t).value.identifiers == done + Rest(t, inside, start).value.identifiers)
  }

  lemma ShardsAtOpen(t: string, start: nat, s: string, next: nat, done: seq<string>)
    requires start <= |t| && next <= |t|
    requires ShardsSoFar(t, false, start, done)
    requires Rest(t, false, start) == ConsShard(s, Rest(t, true, next))
    ensures ShardsSoFar(t, true, next, done + [s])
  {
  }

  lemma ShardsAtClose(t: string, start: nat, s: string, next: nat, done: seq<string>)
    requires start <= |t| && next <= |t|
    requires ShardsSoFar(t, true, start, done)
    requires Rest(t, true, start) == ConsIdentifier(s, Rest(t, false, next))
    ensures ShardsSoFar(t, false, next, done)
  {
  }

  lemma IdentifiersAtOpen(t: string, start: nat, s: string, next: nat, done: seq<string>)
    requires start <= |t| && next <= |t|
    requires IdentifiersSoFar(t, false, start, done)
    requires Rest(t, false, start) == ConsShard(s, Rest(t, true, next))
    ensures IdentifiersSoFar(t, true, next, done)
  {
  }

  lemma IdentifiersAtClose(t: string, start: nat, s: string, next: nat, done: seq<string>)
    requires start <= |t| && next <= |t|
    requires IdentifiersSoFar(t, true, start, done)
    requires Rest(t, true, start) == ConsIdentifier(s, Rest(t, false, next))
    ensures IdentifiersSoFar(t, false, next, done + [s])
  {
  }

  /**
   * The shard scan's loop state: the scan rule's state, the shards written
   * so far (`done`, the last one ending before `begin`), and the reference
   * count of the openings still ahead.
   */
  ghost predicate ShardScan(t: string, pos: nat, prev: char, inside: bool, start: nat, begin: nat, done: seq<string>)
  {
    begin <= pos && (!inside ==> start == begin) &&
    ScanState(t, pos, prev, inside, start) &&
    Openings(t) == |done| + RestTally(t, inside, start).opens &&
    ShardsSoFar(t, inside, start, done)
  }

  lemma ShardScanStart(t: string)
    ensures ShardScan(t, 0, '\0', false, 0, 0, [])
  {
    ScanStart(t);
  }

  /** Opening a placeholder ends the current shard at the '$'. */
  lemma ShardScanOpen(t: string, pos: nat, prev: char, start: nat, begin: nat, done: seq<string>)
    requires ShardScan(t, pos, prev, false, start, begin, done) && pos < |t|
    requires Opens(false, prev, t[pos])
    ensures 1 <= pos && begin <= pos - 1 && |done| < Openings(t)
    ensures ShardScan(t, pos + 1, t[pos], true, pos + 1, begin, done + [t[begin..pos - 1]])
  {
    ScanOpen(t, pos, prev, start);
    ShardsAtOpen(t, start, t[begin..pos - 1], pos + 1, done);
  }

  /** Closing a placeholder starts the next shard after the '}'. */
  lemma ShardScanClose(t: string, pos: nat, prev: char, start: nat, begin: nat, done: seq<string>)
    requires ShardScan(t, pos, prev, true, start, begin, done) && pos < |t|
    requires Closes(true, t[pos])
    ensures ShardScan(t, pos + 1, t[pos], false, pos + 1, pos + 1, done)
  {
    ScanClose(t, pos, prev, start);
    ShardsAtClose(t, start, t[start..pos], pos + 1, done);
  }

  lemma ShardScanOther(t: string, pos: nat, prev: char, inside: bool, start: nat, begin: nat, done: seq<string>)
    requires ShardScan(t, pos, prev, inside, start, begin, done) && pos < |t|
    requires !Opens(inside, prev, t[pos]) && !Closes(inside, t[pos])
    ensures ShardScan(t, pos + 1, t[pos], inside, start, begin, done)
  {
    ScanOther(t, pos, prev, inside, start);
  }

  /** At the end: the text splits exactly when no placeholder is open, and then the shards are complete. */
  lemma ShardScanEnd(t: string, pos: nat, prev: char, inside: bool, start: nat, begin: nat, done: seq<string>)
    requires ShardScan(t, pos, prev, inside, start, begin, done) && |t| <= pos
    ensures pos == |t| && begin <= pos && |done| <= Openings(t)
    ensures Split(t).Ok? <==> !inside
    ensures !inside ==> |done| == Openings(t) && Split(t).value.shards == done + [t[begin..pos]]
  {
    ScanEnd(t, prev, inside, start);
    assert t[begin..pos] == t[begin..];
  }

  /**
   * The identifier scan's loop state: the scan rule's state, the
   * identifiers written so far (the current one starting at `begin`), and the
   * reference count of the closings still ahead.
   */
  ghost predicate IdentifierScan(t: string, pos: nat, prev: char, inside: bool, start: nat, begin: nat, done: seq<string>)
  {
    (inside ==> start == begin) &&
    ScanState(t, pos, prev, inside, start) &&
    Closings(t) == |done| + RestTally(t, inside, start).closes &&
    IdentifiersSoFar(t, inside, start, done)
  }

  lemma IdentifierScanStart(t: string)
    ensures IdentifierScan(t, 0, '\0', false, 0, 0, [])
  {
    ScanStart(t);
  }

  /** Opening a placeholder starts the next identifier after the '{'. */
  lemma IdentifierScanOpen(t: string, pos: nat, prev: char, start: nat, begin: nat, done: seq<string>)
    requires IdentifierScan(t, pos, prev, false, start, begin, done) && pos < |t|
    requires Opens(false, prev, t[pos])
    ensures IdentifierScan(t, pos + 1, t[pos], true, pos + 1, pos + 1, done)
  {
    ScanOpen(t, pos, prev, start);
    IdentifiersAtOpen(t, start, t[start..pos - 1], pos + 1, done);
  }

  /** Closing a placeholder ends the current identifier at the '}'. */
  lemma IdentifierScanClose(t: string, pos: nat, prev: char, start: nat, begin: nat, done: seq<string>)
    requires IdentifierScan(t, pos, prev, true, start, begin, done) && pos < |t|
    requires Closes(true, t[pos])
    ensures begin <= pos && |done| < Closings(t)
    ensures IdentifierScan(t, pos + 1, t[pos], false, pos + 1, begin, done + [t[begin..pos]])
  {
    ScanClose(t, pos, prev, start);
    IdentifiersAtClose(t, start, t[begin..pos], pos + 1, done);
  }

  lemma IdentifierScanOther(t: string, pos: nat, prev: char, inside: bool, start: nat, begin: nat, done: seq<string>)
    requires IdentifierScan(t, pos, prev, inside, start, begin, done) && pos < |t|
    requires !Opens(inside, prev, t[pos]) && !Closes(inside, t[pos])
    ensures IdentifierScan(t, pos + 1, t[pos], inside, start, begin, done)
  {
    ScanOther(t, pos, prev, inside, start);
  }

  /** At the end: the text splits exactly when no placeholder is open, and then the identifiers are complete. */
  lemma IdentifierScanEnd(t: string, pos: nat, prev: char, inside: bool, start: nat, begin: nat, done: seq<string>)
    requires IdentifierScan(t, pos, prev, inside, start, begin, done) && |t| <= pos
    ensures Split(t).Ok? <==> !inside
    ensures !inside ==> |done| == Closings(t) && Split(t).value.identifiers == done
  {
    ScanEnd(t, prev, inside, start);
  }
}
