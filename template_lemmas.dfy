/**
 * Properties of the reference parse and of compiling: the split is exactly
 * the inverse of Join on well-formed pieces, its counts, when it fails, and
 * what compiling against a substitution map yields.
 */
module TemplateLemmas {
  import opened Results
  import opened TemplateSpec

  /** The first "${" at or after `from` is at `a` when none lies in between. */
  lemma FindOpenIs(t: string, from: nat, a: nat)
    requires from <= a && OpensAt(t, a)
    requires forall i :: from <= i < a ==> !OpensAt(t, i)
    ensures FindOpen(t, from) == Some(a)
  {
  }

  /** The first '}' at or after `from` is at `c` when none lies in between. */
  lemma FindCloseIs(t: string, from: nat, c: nat)
    requires from <= c < |t| && t[c] == '}'
    requires forall i :: from <= i < c ==> t[i] != '}'
    ensures FindClose(t, from) == Some(c)
  {
  }

  /** A slice inside which no "${" starts has no opening. */
  lemma NoOpeningInSlice(t: string, b: nat, e: nat)
    requires b <= e <= |t|
    requires forall i :: b <= i && i + 1 < e ==> !OpensAt(t, i)
    ensures !HasOpening(t[b..e])
  {
    forall x | 0 <= x < |t[b..e]| ensures !OpensAt(t[b..e], x) {
      if x + 1 < e - b {
        assert !OpensAt(t, b + x);
      }
    }
  }

  /** Every shard of a successful split is free of "${" and every identifier free of '}'. */
  lemma {:induction false} SplitFromWellFormed(t: string, b: nat)
    requires b <= |t|
    ensures SplitFrom(t, b).Ok? ==> WellFormed(SplitFrom(t, b).value)
    decreases |t| - b
  {
    match FindOpen(t, b)
    case None =>
      NoOpeningInSlice(t, b, |t|);
      assert t[b..|t|] == t[b..];
    case Some(i) =>
      match FindClose(t, i + 2)
      case None =>
      case Some(j) =>
        SplitFromWellFormed(t, j + 1);
        if SplitFrom(t, j + 1).Ok? {
          var p := SplitFrom(t, j + 1).value;
          var q := Pieces([t[b..i]] + p.shards, [t[i + 2..j]] + p.identifiers);
          assert IdentFrom(t, i + 2) == Ok(Pieces(p.shards, [t[i + 2..j]] + p.identifiers));
          assert SplitFrom(t, b) == Ok(q);
          NoOpeningInSlice(t, b, i);
          forall k | 0 <= k < |q.shards| ensures !HasOpening(q.shards[k]) {
            if k > 0 { assert q.shards[k] == p.shards[k - 1]; }
          }
          forall k | 0 <= k < |q.identifiers| ensures '}' !in q.identifiers[k] {
            if k > 0 { assert q.identifiers[k] == p.identifiers[k - 1]; }
          }
        }
  }

  /** One placeholder of the split: the shard before it, its identifier, and the split of what follows. */
  lemma SplitFromStep(t: string, b: nat, i: nat, j: nat)
    requires b <= |t|
    requires FindOpen(t, b) == Some(i) && FindClose(t, i + 2) == Some(j)
    ensures SplitFrom(t, b) == ConsShard(t[b..i], ConsIdentifier(t[i + 2..j], SplitFrom(t, j + 1)))
  {
  }

  /** Join of pieces with a leading shard and identifier. */
  lemma JoinCons(s0: string, id0: string, p: Pieces)
    requires |p.shards| == |p.identifiers| + 1
    ensures Join([s0] + p.shards, [id0] + p.identifiers) == s0 + "${" + id0 + "}" + Join(p.shards, p.identifiers)
  {
    assert ([s0] + p.shards)[1..] == p.shards;
    assert ([id0] + p.identifiers)[1..] == p.identifiers;
  }

  /** A text cut around an opening at i and a closing at j. */
  lemma CutAround(t: string, b: nat, i: nat, j: nat)
    requires b <= i && OpensAt(t, i) && i + 2 <= j < |t| && t[j] == '}'
    ensures t[b..] == t[b..i] + "${" + t[i + 2..j] + "}" + t[j + 1..]
  {
    assert t[i..i + 2] == "${";
    assert t[j..j + 1] == "}";
    assert t[b..] == t[b..i] + t[i..i + 2] + t[i + 2..j] + t[j..j + 1] + t[j + 1..];
  }

  /** A successful split joins back to the text it came from. */
  lemma {:induction false} SplitFromJoins(t: string, b: nat)
    requires b <= |t|
    ensures SplitFrom(t, b).Ok? ==>
      |SplitFrom(t, b).value.shards| == |SplitFrom(t, b).value.identifiers| + 1 &&
      Join(SplitFrom(t, b).value.shards, SplitFrom(t, b).value.identifiers) == t[b..]
    decreases |t| - b
  {
    match FindOpen(t, b)
    case None =>
    case Some(i) =>
      match FindClose(t, i + 2)
      case None =>
      case Some(j) =>
        SplitFromJoins(t, j + 1);
        SplitFromStep(t, b, i, j);
        if SplitFrom(t, j + 1).Ok? {
          var p := SplitFrom(t, j + 1).value;
          JoinCons(t[b..i], t[i + 2..j], p);
          CutAround(t, b, i, j);
        }
  }

  /** A "${" wholly inside a copy of s0 in t is one of s0. */
  lemma OpensInSlice(t: string, b: nat, s0: string, i: nat)
    requires b <= i && i + 1 < b + |s0| <= |t| && t[b..b + |s0|] == s0
    ensures OpensAt(t, i) ==> OpensAt(s0, i - b)
  {
    assert t[i] == s0[i - b] && t[i + 1] == s0[i + 1 - b];
  }

  /**
   * When shard s0 starts at b and is followed by "${", identifier id0 and '}',
   * the search finds that opening and that closing.
   */
  lemma FirstPlaceholder(t: string, b: nat, s0: string, id0: string)
    requires !HasOpening(s0) && '}' !in id0
    requires b + |s0| + |id0| + 3 <= |t|
    requires t[b..b + |s0|] == s0
    requires t[b + |s0|] == '$' && t[b + |s0| + 1] == '{'
    requires t[b + |s0| + 2..b + |s0| + 2 + |id0|] == id0
    requires t[b + |s0| + 2 + |id0|] == '}'
    ensures FindOpen(t, b) == Some(b + |s0|)
    ensures FindClose(t, b + |s0| + 2) == Some(b + |s0| + 2 + |id0|)
  {
    var a := b + |s0|;
    var c := a + 2 + |id0|;
    forall i | b <= i < a ensures !OpensAt(t, i) {
      if i + 1 < a {
        OpensInSlice(t, b, s0, i);
      }
    }
    FindOpenIs(t, b, a);
    forall x | a + 2 <= x < c ensures t[x] != '}' {
      assert t[x] == id0[x - a - 2];
    }
    FindCloseIs(t, a + 2, c);
  }

  /** Dropping the leading shard and identifier keeps pieces well formed. */
  lemma WellFormedTail(p: Pieces)
    requires WellFormed(p) && |p.identifiers| > 0
    ensures WellFormed(Pieces(p.shards[1..], p.identifiers[1..]))
  {
    forall k | 0 <= k < |p.shards[1..]| ensures !HasOpening(p.shards[1..][k]) {
      assert p.shards[1..][k] == p.shards[k + 1];
    }
    forall k | 0 <= k < |p.identifiers[1..]| ensures '}' !in p.identifiers[1..][k] {
      assert p.identifiers[1..][k] == p.identifiers[k + 1];
    }
  }

  /** Where the parts of pre + s0 + "${" + id0 + "}" + rest sit. */
  lemma PlaceholderLayout(pre: string, s0: string, id0: string, rest: string)
    ensures var t := pre + s0 + "${" + id0 + "}" + rest;
      var b := |pre|;
      t[b..b + |s0|] == s0 &&
      t[b + |s0|] == '$' && t[b + |s0| + 1] == '{' &&
      t[b + |s0| + 2..b + |s0| + 2 + |id0|] == id0 &&
      t[b + |s0| + 2 + |id0|] == '}' &&
      t[b + |s0| + 3 + |id0|..] == rest
  {
    var u := pre + s0 + "${" + id0 + "}";
    var t := u + rest;
    assert t[..|u|] == u;
    var b := |pre|;
    assert u[b..b + |s0|] == s0;
    assert u[b + |s0| + 2..b + |s0| + 2 + |id0|] == id0;
  }

  /** A "${" at i of t is one at i - b of t[b..]. */
  lemma OpensInSuffix(t: string, b: nat, i: nat)
    requires b <= i && OpensAt(t, i)
    ensures OpensAt(t[b..], i - b)
  {
  }

  /** A tail free of "${" splits into one shard. */
  lemma SplitAfterPrefixLast(t: string, b: nat)
    requires b <= |t| && !HasOpening(t[b..])
    ensures SplitFrom(t, b) == Ok(Pieces([t[b..]], []))
  {
    if FindOpen(t, b).Some? {
      OpensInSuffix(t, b, FindOpen(t, b).value);
    }
  }

  /** One placeholder at b in front of a tail that already splits into `rest`. */
  lemma SplitAfterPlaceholder(t: string, b: nat, s0: string, id0: string, rest: Pieces)
    requires !HasOpening(s0) && '}' !in id0
    requires b + |s0| + |id0| + 3 <= |t|
    requires t[b..b + |s0|] == s0
    requires t[b + |s0|] == '$' && t[b + |s0| + 1] == '{'
    requires t[b + |s0| + 2..b + |s0| + 2 + |id0|] == id0
    requires t[b + |s0| + 2 + |id0|] == '}'
    requires SplitFrom(t, b + |s0| + 3 + |id0|) == Ok(rest)
    ensures SplitFrom(t, b) == Ok(Pieces([s0] + rest.shards, [id0] + rest.identifiers))
  {
    var a := b + |s0|;
    var c := a + 2 + |id0|;
    FirstPlaceholder(t, b, s0, id0);
    SplitFromStep(t, b, a, c);
  }

  /** The placeholder step of SplitAfterPrefix, stated on the concatenated text. */
  lemma SplitAfterPrefixStep(pre: string, s0: string, id0: string, j: string, rest: Pieces)
    requires !HasOpening(s0) && '}' !in id0
    requires SplitFrom(pre + s0 + "${" + id0 + "}" + j, |pre + s0 + "${" + id0 + "}"|) == Ok(rest)
    ensures SplitFrom(pre + s0 + "${" + id0 + "}" + j, |pre|) ==
      Ok(Pieces([s0] + rest.shards, [id0] + rest.identifiers))
  {
    var t := pre + s0 + "${" + id0 + "}" + j;
    var b := |pre|;
    PlaceholderLayout(pre, s0, id0, j);
    assert |pre + s0 + "${" + id0 + "}"| == b + |s0| + 3 + |id0|;
    SplitAfterPlaceholder(t, b, s0, id0, rest);
  }

  /** Whatever precedes position |pre| does not matter: well-formed pieces split back into themselves. */
  lemma {:induction false} SplitAfterPrefix(pre: string, p: Pieces)
    requires WellFormed(p)
    ensures SplitFrom(pre + Join(p.shards, p.identifiers), |pre|) == Ok(p)
    decreases |p.identifiers|
  {
    var s0 := p.shards[0];
    if p.identifiers == [] {
      var t := pre + s0;
      assert t[|pre|..] == s0;
      SplitAfterPrefixLast(t, |pre|);
      assert p.shards == [s0];
    } else {
      var id0 := p.identifiers[0];
      var rest := Pieces(p.shards[1..], p.identifiers[1..]);
      WellFormedTail(p);
      assert p.shards == [s0] + rest.shards;
      assert p.identifiers == [id0] + rest.identifiers;
      JoinCons(s0, id0, rest);
      var j := Join(rest.shards, rest.identifiers);
      var pre' := pre + s0 + "${" + id0 + "}";
      assert pre + Join(p.shards, p.identifiers) == pre' + j;
      SplitAfterPrefix(pre', rest);
      SplitAfterPrefixStep(pre, s0, id0, j, rest);
    }
  }

  /** Split and Join are inverse bijections between texts and well-formed pieces. */
  lemma SplitIffJoin(t: string, p: Pieces)
    ensures Split(t) == Ok(p) <==> WellFormed(p) && Join(p.shards, p.identifiers) == t
  {
    SplitFromWellFormed(t, 0);
    SplitFromJoins(t, 0);
    assert t[0..] == t;
    if WellFormed(p) && Join(p.shards, p.identifiers) == t {
      SplitAfterPrefix([], p);
      assert [] + t == t;
    }
  }

  /** The counts of a successful scan: one more shard than identifiers, every opening closed. */
  lemma {:induction false} SplitFromCounts(t: string, b: nat)
    requires b <= |t|
    ensures SplitFrom(t, b).Ok? ==>
      |SplitFrom(t, b).value.shards| == TallyFrom(t, b).opens + 1 &&
      |SplitFrom(t, b).value.identifiers| == TallyFrom(t, b).opens &&
      TallyFrom(t, b).closes == TallyFrom(t, b).opens
    ensures SplitFrom(t, b).Err? ==> TallyFrom(t, b).closes + 1 == TallyFrom(t, b).opens
    decreases |t| - b
  {
    match FindOpen(t, b)
    case None =>
    case Some(i) =>
      match FindClose(t, i + 2)
      case None =>
      case Some(j) =>
        SplitFromCounts(t, j + 1);
        assert TallyInside(t, i + 2) == Tally(TallyFrom(t, j + 1).opens, TallyFrom(t, j + 1).closes + 1);
        if SplitFrom(t, j + 1).Ok? {
          var p := SplitFrom(t, j + 1).value;
          assert SplitFrom(t, b) == Ok(Pieces([t[b..i]] + p.shards, [t[i + 2..j]] + p.identifiers));
        } else {
          assert SplitFrom(t, b).Err?;
        }
  }

  /** Splitting fails exactly when some "${" met outside a placeholder is never followed by a '}'. */
  lemma {:induction false} SplitFromFails(t: string, b: nat)
    requires b <= |t|
    ensures SplitFrom(t, b).Err? <==> UnclosedFrom(t, b)
    decreases |t| - b
  {
    match FindOpen(t, b)
    case None =>
    case Some(i0) =>
      match FindClose(t, i0 + 2)
      case None =>
        assert '}' !in t[i0 + 2..];
      case Some(j) =>
        SplitFromFails(t, j + 1);
        if UnclosedFrom(t, b) {
          var i :| b <= i && OpensAt(t, i) && '}' !in t[i + 2..];
          assert j + 1 <= i;
        }
  }

  /** The parse of a whole text: pieces, counts and the failure condition. */
  lemma SplitProperties(t: string)
    ensures Split(t).Ok? ==>
      WellFormed(Split(t).value) &&
      Join(Split(t).value.shards, Split(t).value.identifiers) == t &&
      |Split(t).value.shards| == Openings(t) + 1 &&
      Closings(t) == Openings(t)
    ensures Split(t).Err? <==> UnclosedFrom(t, 0)
    ensures Split(t).Err? ==> Closings(t) + 1 == Openings(t)
  {
    SplitFromWellFormed(t, 0);
    SplitFromJoins(t, 0);
    SplitFromCounts(t, 0);
    SplitFromFails(t, 0);
    assert t[0..] == t;
  }

  /** A text without "${" is a single shard. */
  lemma NoPlaceholder(t: string, values: map<string, string>)
    requires !HasOpening(t)
    ensures Split(t) == Ok(Pieces([t], [])) && Openings(t) == 0
    ensures Interpolate([t], [], values) == Ok(t)
  {
    assert FindOpen(t, 0).None?;
    assert t[0..] == t;
    assert [t][1..] == [];
    assert t + "" == t;
  }

  /** Compiling succeeds exactly when every identifier has a value, and otherwise names the first one missing. */
  lemma {:induction false} InterpolateFails(shards: seq<string>, identifiers: seq<string>, values: map<string, string>)
    requires |shards| == |identifiers| + 1
    ensures Interpolate(shards, identifiers, values).Ok? <==>
      forall k :: 0 <= k < |identifiers| ==> identifiers[k] in values
    ensures Interpolate(shards, identifiers, values).Err? ==>
      exists k :: 0 <= k < |identifiers| &&
        Interpolate(shards, identifiers, values).error.identifier == identifiers[k] &&
        identifiers[k] !in values &&
        forall j :: 0 <= j < k ==> identifiers[j] in values
    decreases |identifiers|
  {
    if identifiers == [] {
      assert shards[1..] == [];
    } else if identifiers[0] !in values {
    } else {
      InterpolateFails(shards[1..], identifiers[1..], values);
      var r := Interpolate(shards[1..], identifiers[1..], values);
      if r.Ok? {
        forall k | 0 <= k < |identifiers| ensures identifiers[k] in values {
          if k > 0 { assert identifiers[k] == identifiers[1..][k - 1]; }
        }
      } else {
        var k :| 0 <= k < |identifiers[1..]| && r.error.identifier == identifiers[1..][k] &&
          identifiers[1..][k] !in values && forall j :: 0 <= j < k ==> identifiers[1..][j] in values;
        assert identifiers[k + 1] == identifiers[1..][k];
        forall j | 0 <= j < k + 1 ensures identifiers[j] in values {
          if j > 0 { assert identifiers[j] == identifiers[1..][j - 1]; }
        }
      }
    }
  }

  /** Keys that no identifier names never affect the result. */
  lemma {:induction false} InterpolateIgnoresUnusedKeys(shards: seq<string>, identifiers: seq<string>, m1: map<string, string>, m2: map<string, string>)
    requires forall k :: 0 <= k < |identifiers| ==>
      (identifiers[k] in m1 <==> identifiers[k] in m2) &&
      (identifiers[k] in m1 ==> m1[identifiers[k]] == m2[identifiers[k]])
    ensures Interpolate(shards, identifiers, m1) == Interpolate(shards, identifiers, m2)
    decreases |shards|
  {
    if shards == [] {
    } else if identifiers == [] {
      InterpolateIgnoresUnusedKeys(shards[1..], [], m1, m2);
    } else {
      assert identifiers[0] in m1 <==> identifiers[0] in m2;
      forall k | 0 <= k < |identifiers[1..]|
        ensures (identifiers[1..][k] in m1 <==> identifiers[1..][k] in m2) &&
          (identifiers[1..][k] in m1 ==> m1[identifiers[1..][k]] == m2[identifiers[1..][k]])
      {
        assert identifiers[1..][k] == identifiers[k + 1];
      }
      InterpolateIgnoresUnusedKeys(shards[1..], identifiers[1..], m1, m2);
    }
  }

  /** Substituting each identifier by its own placeholder text gives back the joined template. */
  lemma {:induction false} InterpolatePlaceholders(shards: seq<string>, identifiers: seq<string>, values: map<string, string>)
    requires |shards| == |identifiers| + 1
    requires forall k :: 0 <= k < |identifiers| ==>
      identifiers[k] in values && values[identifiers[k]] == "${" + identifiers[k] + "}"
    ensures Interpolate(shards, identifiers, values) == Ok(Join(shards, identifiers))
    decreases |identifiers|
  {
    if identifiers == [] {
      assert shards[1..] == [];
      assert shards[0] + "" == shards[0];
    } else {
      forall k | 0 <= k < |identifiers[1..]|
        ensures identifiers[1..][k] in values && values[identifiers[1..][k]] == "${" + identifiers[1..][k] + "}"
      {
        assert identifiers[1..][k] == identifiers[k + 1];
      }
      InterpolatePlaceholders(shards[1..], identifiers[1..], values);
      assert values[identifiers[0]] == "${" + identifiers[0] + "}";
      assert shards[0] + values[identifiers[0]] + Join(shards[1..], identifiers[1..]) ==
        shards[0] + "${" + identifiers[0] + "}" + Join(shards[1..], identifiers[1..]);
    }
  }

  /** Parse then compile with every identifier bound to its own placeholder reproduces the text. */
  lemma CompileInvertsParse(t: string, values: map<string, string>)
    requires Split(t).Ok?
    requires forall k :: 0 <= k < |Split(t).value.identifiers| ==>
      Split(t).value.identifiers[k] in values &&
      values[Split(t).value.identifiers[k]] == "${" + Split(t).value.identifiers[k] + "}"
    ensures Interpolate(Split(t).value.shards, Split(t).value.identifiers, values) == Ok(t)
  {
    SplitProperties(t);
    InterpolatePlaceholders(Split(t).value.shards, Split(t).value.identifiers, values);
  }
}
