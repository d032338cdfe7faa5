/** The order in which queries are issued: for each candidate in turn, its
    non-empty options in order. */
module QueryOrder {
  import opened Wrappers
  import opened NameCandidates

  /** The queries actually issued from a list of options: missing (`None`)
      and empty options are skipped, the rest keep their order. */
  function Tries(options: seq<Option<string>>): seq<string>
  {
    if options == [] then []
    else
      var last := options[|options| - 1];
      Tries(options[..|options| - 1]) + (if last.Some? && last.value != "" then [last.value] else [])
  }

  /** Every query tried is a present, non-empty option. */
  lemma {:induction false} TriesSkipsEmpty(options: seq<Option<string>>)
    ensures |Tries(options)| <= |options|
    ensures forall q :: q in Tries(options) ==> q != "" && Some(q) in options
  {
    if options != [] {
      var init := options[..|options| - 1];
      TriesSkipsEmpty(init);
      assert options == init + [options[|options| - 1]];
    }
  }

  lemma {:induction false} TriesSnoc(options: seq<Option<string>>, k: nat)
    requires k < |options|
    ensures Tries(options[..k + 1]) ==
      Tries(options[..k]) + (if options[k].Some? && options[k].value != "" then [options[k].value] else [])
  {
    assert options[..k + 1][..k] == options[..k];
  }

  lemma {:induction false} TriesAppend(a: seq<Option<string>>, b: seq<Option<string>>)
    ensures Tries(a + b) == Tries(a) + Tries(b)
    decreases |b|
  {
    if b != [] {
      var b' := b[..|b| - 1];
      assert (a + b)[..|a + b| - 1] == a + b';
      TriesAppend(a, b');
    } else {
      assert a + b == a;
    }
  }

  /** The queries issued for one candidate, in order. */
  function QueriesFor(cand: string): seq<string>
  {
    Tries(QueryOptions(cand))
  }

  /** The Korean candidate is tried before its alias, and the alias only
      when the candidate is a key of the alias table; empty strings are
      never sent. */
  lemma {:induction false} KoreanBeforeAlias(cand: string)
    ensures QueriesFor(cand) ==
      (if cand == "" then [] else [cand]) +
      (if cand in AliasTable && AliasTable[cand] != "" then [AliasTable[cand]] else [])
  {
    var opts := QueryOptions(cand);
    var alias := opts[1];
    assert opts[..1] == [Some(cand)] && opts[..1][..0] == [];
    assert Tries(opts[..1]) == (if cand == "" then [] else [cand]);
    assert Tries(opts) == Tries(opts[..1]) + (if alias.Some? && alias.value != "" then [alias.value] else []);
  }

  /** All queries issued for a candidate list, candidate by candidate. */
  function QueriesOf(cands: seq<string>): seq<string>
  {
    if cands == [] then []
    else
      var last := cands[|cands| - 1];
      QueriesOf(cands[..|cands| - 1]) + QueriesFor(last)
  }

  lemma {:induction false} QueriesOfAppend(a: seq<string>, b: seq<string>)
    ensures QueriesOf(a + b) == QueriesOf(a) + QueriesOf(b)
    decreases |b|
  {
    if b != [] {
      var b' := b[..|b| - 1];
      assert (a + b)[..|a + b| - 1] == a + b';
      QueriesOfAppend(a, b');
    } else {
      assert a + b == a;
    }
  }

  lemma {:induction false} QueriesOfSnoc(cands: seq<string>, i: nat)
    requires i < |cands|
    ensures QueriesOf(cands[..i + 1]) == QueriesOf(cands[..i]) + QueriesFor(cands[i])
  {
    assert cands[..i + 1][..i] == cands[..i];
  }

  /** After all options of candidate `i`, the queries of the first `i + 1`
      candidates have been issued. */
  lemma {:induction false} QueriesOfStep(cands: seq<string>, i: nat)
    requires i < |cands|
    ensures QueriesOf(cands[..i + 1]) == QueriesOf(cands[..i]) + Tries(QueryOptions(cands[i])[..2])
  {
    QueriesOfSnoc(cands, i);
    var opts := QueryOptions(cands[i]);
    assert opts[..2] == opts;
  }

  lemma {:induction false} QueriesOfSplitAt(cands: seq<string>, n: nat)
    requires n <= |cands|
    ensures QueriesOf(cands) == QueriesOf(cands[..n]) + QueriesOf(cands[n..])
  {
    assert cands == cands[..n] + cands[n..];
    QueriesOfAppend(cands[..n], cands[n..]);
  }

  lemma {:induction false} TriesSplitAt(opts: seq<Option<string>>, k: nat)
    requires k <= |opts|
    ensures Tries(opts) == Tries(opts[..k]) + Tries(opts[k..])
  {
    assert opts == opts[..k] + opts[k..];
    TriesAppend(opts[..k], opts[k..]);
  }

  /** The queries of `cands`, split around option `k` of candidate `i`. */
  lemma {:induction false} QueriesSplit(cands: seq<string>, i: nat, k: nat)
    requires i < |cands| && k <= 2
    ensures QueriesOf(cands) ==
      QueriesOf(cands[..i]) + Tries(QueryOptions(cands[i])[..k]) +
      (Tries(QueryOptions(cands[i])[k..]) + QueriesOf(cands[i + 1..]))
  {
    var opts := QueryOptions(cands[i]);
    var a, b, c, d := QueriesOf(cands[..i]), Tries(opts[..k]), Tries(opts[k..]), QueriesOf(cands[i + 1..]);
    QueriesOfSnoc(cands, i);
    QueriesOfSplitAt(cands, i + 1);
    TriesSplitAt(opts, k);
    assert QueriesOf(cands) == a + (b + c) + d;
    AppendRegroup(a, b, c, d);
  }

  /** The queries of `cands` around a present, non-empty option `k` of
      candidate `i`: those before it, the option itself, those after it. */
  lemma {:induction false} QueriesAroundOption(cands: seq<string>, i: nat, k: nat)
    requires i < |cands| && k < 2
    requires QueryOptions(cands[i])[k].Some? && QueryOptions(cands[i])[k].value != ""
    ensures var opts := QueryOptions(cands[i]);
      QueriesOf(cands) ==
        QueriesOf(cands[..i]) + Tries(opts[..k]) + [opts[k].value] +
        (Tries(opts[k + 1..]) + QueriesOf(cands[i + 1..]))
  {
    var opts := QueryOptions(cands[i]);
    TriesSnoc(opts, k);
    QueriesSplit(cands, i, k + 1);
  }

  lemma AppendRegroup<T>(a: seq<T>, b: seq<T>, c: seq<T>, d: seq<T>)
    ensures a + (b + c) + d == a + b + (c + d)
  {
  }

  /** The whole ordered query sequence tried for a region name. */
  function Queries(regionName: string): seq<string>
  {
    QueriesOf(Candidates(regionName))
  }

  /** A non-empty name is itself the first query. */
  lemma {:induction false} NameFirst(regionName: string)
    requires regionName != ""
    ensures |Queries(regionName)| > 0 && Queries(regionName)[0] == regionName
  {
    var cands := Candidates(regionName);
    QueriesAroundOption(cands, 0, 0);
  }

  /** At most eight queries are issued for a name; none is empty, and each
      is one of the candidates or an alias from the table. */
  lemma {:induction false} QueriesBounded(regionName: string)
    ensures |Queries(regionName)| <= 8
    ensures forall q :: q in Queries(regionName) ==>
      q != "" && (q in Candidates(regionName) || q in AliasTable.Values)
  {
    QueriesOfOrigin(Candidates(regionName));
  }

  /** Every query issued for a candidate list is non-empty and is a
      candidate or an alias; there are at most two per candidate. */
  lemma {:induction false} QueriesOfOrigin(cands: seq<string>)
    ensures |QueriesOf(cands)| <= 2 * |cands|
    ensures forall q :: q in QueriesOf(cands) ==> q != "" && (q in cands || q in AliasTable.Values)
  {
    if cands != [] {
      var init, last := cands[..|cands| - 1], cands[|cands| - 1];
      QueriesOfOrigin(init);
      assert cands == init + [last];
      TriesSkipsEmpty(QueryOptions(last));
      forall q | q in QueriesFor(last) ensures q == last || q in AliasTable.Values {
        assert Some(q) in QueryOptions(last);
      }
    }
  }

  /** A name without any suffix character issues the queries of that one
      candidate four times over: there is no deduplication. */
  lemma {:induction false} NoSuffixRepeatsQueries(regionName: string)
    requires forall k :: 0 <= k < 3 ==> Suffixes[k] !in regionName
    ensures var qs := QueriesFor(regionName);
      Queries(regionName) == qs + qs + qs + qs
  {
    CandidatesKeepDuplicates(regionName);
    var qs := QueriesFor(regionName);
    var c := Candidates(regionName);
    assert QueriesOf(c[..1]) == qs by {
      assert c[..1][..0] == [];
    }
    assert QueriesOf(c[..2]) == qs + qs by {
      assert c[..2][..1] == c[..1];
    }
    assert QueriesOf(c[..3]) == qs + qs + qs by {
      assert c[..3][..2] == c[..2];
    }
    assert c[..3] == c[..|c| - 1];
  }
}
