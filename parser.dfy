/**
 * TemplateLiteralParser: the three left-to-right scans of a template
 * literal (count the shards, cut out the shards, cut out the identifiers)
 * and parse, which runs the last two for a given shard count. Cis is the
 * CIS macro: count, then parse with that count.
 */
module Parser {
  import opened Results
  import opened TemplateSpec
  import opened TemplateLemmas
  import opened Scanning
  import opened Templates

  class TemplateLiteralParser {
    /** The characters of the literal (its first `size` characters in the source). */
    const str: string

    constructor (literal: string)
      ensures str == literal
    {
      str := literal;
    }

    /** 1 plus the number of placeholders the scan opens. */
    method CountShards() returns (shards: nat)
      ensures shards == 1 + Openings(str)
    {
      shards := 1;
      var insidePlaceholder := false;
      var prev := '\0';
      var pos := 0;
      ghost var start := 0;
      ScanStart(str);
      while pos < |str|
        invariant ScanState(str, pos, prev, insidePlaceholder, start)
        invariant Openings(str) + 1 == shards + RestTally(str, insidePlaceholder, start).opens
      {
        var c := str[pos];
        if !insidePlaceholder && prev == '$' && c == '{' {
          ScanOpen(str, pos, prev, start);
          insidePlaceholder := true;
          shards := shards + 1;
          start := pos + 1;
        } else if insidePlaceholder && c == '}' {
          ScanClose(str, pos, prev, start);
          insidePlaceholder := false;
          start := pos + 1;
        } else {
          ScanOther(str, pos, prev, insidePlaceholder, start);
        }
        prev := c;
        pos := pos + 1;
      }
      ScanEnd(str, prev, insidePlaceholder, start);
    }

    /**
     * Fills a shard array of shardCount slots: at each opening the text from
     * the fragment start up to the '$', at the end the text from the last
     * fragment start. Fails when the scan ends inside a placeholder or the
     * number of shards written is not shardCount.
     */
    method CreateShards(shardCount: nat) returns (r: Result<seq<string>, ParseError>)
      requires 1 + Openings(str) <= shardCount
      ensures r.Ok? <==> Split(str).Ok? && shardCount == 1 + Openings(str)
      ensures r.Ok? ==> r.value == Split(str).value.shards
    {
      var result := new string[shardCount];
      var idx, begin, pos := 0, 0, 0;
      var insidePlaceholder := false;
      var prev := '\0';
      ghost var start := 0;
      ShardScanStart(str);
      while pos < |str|
        invariant idx <= shardCount
        invariant ShardScan(str, pos, prev, insidePlaceholder, start, begin, result[..idx])
      {
        var c := str[pos];
        if !insidePlaceholder && prev == '$' && c == '{' {
          ShardScanOpen(str, pos, prev, start, begin, result[..idx]);
          ghost var done := result[..idx];
          result[idx] := str[begin..pos - 1];
          assert result[..idx + 1] == done + [str[begin..pos - 1]];
          idx := idx + 1;
          insidePlaceholder := true;
          start := pos + 1;
        } else if insidePlaceholder && c == '}' {
          ShardScanClose(str, pos, prev, start, begin, result[..idx]);
          begin := pos + 1;
          insidePlaceholder := false;
          start := pos + 1;
        } else {
          ShardScanOther(str, pos, prev, insidePlaceholder, start, begin, result[..idx]);
        }
        prev := c;
        pos := pos + 1;
      }
      ShardScanEnd(str, pos, prev, insidePlaceholder, start, begin, result[..idx]);
      ghost var done := result[..idx];
      result[idx] := str[begin..pos];
      assert result[..idx + 1] == done + [str[begin..pos]];
      idx := idx + 1;
      if insidePlaceholder || idx != shardCount {
        return Err(PlaceholderNotClosed);
      }
      assert result[..] == result[..idx];
      return Ok(result[..]);
    }

    /**
     * Fills an identifier array of shardCount - 1 slots: at each closing the
     * text from just after the '{' up to the '}'. Fails when the scan ends
     * inside a placeholder or the number written is not shardCount - 1.
     */
    method CreateIdentifiers(shardCount: nat) returns (r: Result<seq<string>, ParseError>)
      requires 1 + Closings(str) <= shardCount
      ensures r.Ok? <==> Split(str).Ok? && shardCount == 1 + Closings(str)
      ensures r.Ok? ==> r.value == Split(str).value.identifiers
    {
      var result := new string[shardCount - 1];
      var idx, begin, pos := 0, 0, 0;
      var insidePlaceholder := false;
      var prev := '\0';
      ghost var start := 0;
      IdentifierScanStart(str);
      while pos < |str|
        invariant idx <= shardCount - 1
        invariant IdentifierScan(str, pos, prev, insidePlaceholder, start, begin, result[..idx])
      {
        var c := str[pos];
        if !insidePlaceholder && prev == '$' && c == '{' {
          IdentifierScanOpen(str, pos, prev, start, begin, result[..idx]);
          begin := pos + 1;
          insidePlaceholder := true;
          start := pos + 1;
        } else if insidePlaceholder && c == '}' {
          IdentifierScanClose(str, pos, prev, start, begin, result[..idx]);
          ghost var done := result[..idx];
          result[idx] := str[begin..pos];
          assert result[..idx + 1] == done + [str[begin..pos]];
          idx := idx + 1;
          insidePlaceholder := false;
          start := pos + 1;
        } else {
          IdentifierScanOther(str, pos, prev, insidePlaceholder, start, begin, result[..idx]);
        }
        prev := c;
        pos := pos + 1;
      }
      IdentifierScanEnd(str, pos, prev, insidePlaceholder, start, begin, result[..idx]);
      if insidePlaceholder || idx != shardCount - 1 {
        return Err(PlaceholderNotClosed);
      }
      assert result[..] == result[..idx];
      return Ok(result[..]);
    }

    /** The template of shardCount shards: the shards, then the identifiers. */
    method Parse(shardCount: nat) returns (r: Result<ConstexprTemplate, ParseError>)
      requires 1 + Openings(str) <= shardCount
      ensures r.Ok? <==> Split(str).Ok? && shardCount == 1 + Openings(str)
      ensures r.Ok? ==> r.value == ConstexprTemplate(Split(str).value.shards, Split(str).value.identifiers)
    {
      SplitProperties(str);
      var shards := CreateShards(shardCount);
      if shards.Err? {
        return Err(shards.error);
      }
      var ids := CreateIdentifiers(shardCount);
      // every placeholder was closed, so the identifier scan cannot fail
      assert ids.Ok?;
      return Ok(ConstexprTemplate(shards.value, ids.value));
    }
  }

  /**
   * The CIS macro on the characters of a literal: count the shards, then
   * parse with that count. Succeeds exactly when no "${" met outside a
   * placeholder is left without a later '}', and then the shards and
   * identifiers join back to the literal.
   */
  method Cis(literal: string) returns (r: Result<ConstexprTemplate, ParseError>)
    ensures r.Ok? <==> Split(literal).Ok?
    ensures r.Err? <==> UnclosedFrom(literal, 0)
    ensures r.Ok? ==> r.value == ConstexprTemplate(Split(literal).value.shards, Split(literal).value.identifiers)
    ensures r.Ok? ==>
      |r.value.shards| == |r.value.identifiers| + 1 &&
      Join(r.value.shards, r.value.identifiers) == literal
  {
    var parser := new TemplateLiteralParser(literal);
    var shardCount := parser.CountShards();
    r := parser.Parse(shardCount);
    SplitProperties(literal);
  }
}
