/**
 * ConstexprTemplate: the parsed form of a template literal, its shards
 * (literal fragments) and identifiers, and the compile operation that
 * interleaves the shards with the looked-up substitution values.
 */
module Templates {
  import opened Results
  import opened TemplateSpec
  import Cast

  /** The text of every value in a substitution map. */
  function Texts(values: map<string, Cast.StringCast>): map<string, string>
  {
    map k | k in values :: values[k].Text()
  }

  lemma PrefixPrefix(s: string, x: string, r: Result<string, CompileError>)
    ensures Prefix(s, Prefix(x, r)) == Prefix(s + x, r)
  {
    if r.Ok? {
      assert s + (x + r.value) == s + x + r.value;
    }
  }

  datatype ConstexprTemplate = ConstexprTemplate(shards: seq<string>, identifiers: seq<string>)
  {
    /**
     * Appends each shard and, while identifiers remain, the text of the next
     * identifier's value; a missing identifier is an error and nothing is returned.
     */
    method Compile(values: map<string, Cast.StringCast>) returns (r: Result<string, CompileError>)
      ensures r == Interpolate(shards, identifiers, Texts(values))
    {
      ghost var texts := Texts(values);
      var builder := "";
      var idIt := 0;
      var k := 0;
      assert shards[0..] == shards && identifiers[0..] == identifiers;
      ghost var whole := Interpolate(shards, identifiers, texts);
      assert whole.Ok? ==> "" + whole.value == whole.value;
      while k < |shards|
        invariant 0 <= k <= |shards|
        invariant idIt == if k < |identifiers| then k else |identifiers|
        invariant Interpolate(shards, identifiers, texts) ==
          Prefix(builder, Interpolate(shards[k..], identifiers[idIt..], texts))
      {
        assert shards[k..][1..] == shards[k + 1..];
        ghost var before := builder;
        builder := builder + shards[k];
        if idIt < |identifiers| {
          var id := identifiers[idIt];
          assert identifiers[idIt..][1..] == identifiers[idIt + 1..];
          if id !in values {
            return Err(MissingSubstitution(id));
          }
          PrefixPrefix(before, shards[k] + texts[id], Interpolate(shards[k + 1..], identifiers[idIt + 1..], texts));
          builder := builder + values[id].Text();
          assert builder == before + (shards[k] + texts[id]);
          idIt := idIt + 1;
        } else {
          assert identifiers[idIt..] == [];
          PrefixPrefix(before, shards[k], Interpolate(shards[k + 1..], [], texts));
        }
        k := k + 1;
      }
      assert shards[k..] == [];
      assert builder + "" == builder;
      return Ok(builder);
    }
  }
}
