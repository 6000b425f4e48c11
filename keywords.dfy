/**
 * First-match keyword classification, the shape of the screens' `when`
 * cascades over `contains(…, ignoreCase = true)`: a list of rules tried in
 * order, each a group of keywords and the label it gives; the first rule one
 * of whose keywords occurs in the text wins, and a default covers the rest.
 */
module Keywords {
  import opened Text

  /** One `when` branch: `kw1 in s || kw2 in s || … -> label`. */
  datatype Rule<L> = Rule(keywords: seq<string>, outcome: L)

  /** Some keyword of `words` occurs in `s`, ignoring case. */
  predicate MatchesAny(s: string, words: seq<string>) {
    words != [] && (ContainsIgnoreCase(s, words[0]) || MatchesAny(s, words[1..]))
  }

  /** `MatchesAny` is exactly "some listed keyword occurs in `s`". */
  lemma {:induction false} MatchesAnyMeans(s: string, words: seq<string>)
    ensures MatchesAny(s, words) <==> exists i :: 0 <= i < |words| && ContainsIgnoreCase(s, words[i])
  {
    if words != [] {
      MatchesAnyMeans(s, words[1..]);
      if MatchesAny(s, words[1..]) {
        var i :| 0 <= i < |words[1..]| && ContainsIgnoreCase(s, words[1..][i]);
        assert ContainsIgnoreCase(s, words[i + 1]);
      }
      if exists i :: 0 <= i < |words| && ContainsIgnoreCase(s, words[i]) {
        var i :| 0 <= i < |words| && ContainsIgnoreCase(s, words[i]);
        if i > 0 {
          assert words[1..][i - 1] == words[i];
        }
      }
    }
  }

  /** Rule `i` is the first rule that matches `s`. */
  predicate FirstMatching<L>(s: string, rules: seq<Rule<L>>, i: int) {
    0 <= i < |rules| && MatchesAny(s, rules[i].keywords) &&
    forall j :: 0 <= j < i ==> !MatchesAny(s, rules[j].keywords)
  }

  /**
   * The cascade: the label of the first rule that matches `s`, or `default`
   * exactly when no rule matches.
   */
  function FirstMatch<L>(s: string, rules: seq<Rule<L>>, default: L): (r: L)
    ensures forall i :: FirstMatching(s, rules, i) ==> r == rules[i].outcome
    ensures (forall j :: 0 <= j < |rules| ==> !MatchesAny(s, rules[j].keywords)) ==> r == default
  {
    if rules == [] then default
    else if MatchesAny(s, rules[0].keywords) then rules[0].outcome
    else
      var r := FirstMatch(s, rules[1..], default);
      assert forall i :: FirstMatching(s, rules, i) ==> FirstMatching(s, rules[1..], i - 1);
      r
  }

  /** Every label is one of the rules' labels or the default. */
  lemma {:induction false} FirstMatchLabels<L>(s: string, rules: seq<Rule<L>>, default: L)
    ensures FirstMatch(s, rules, default) == default ||
      exists i :: 0 <= i < |rules| && FirstMatch(s, rules, default) == rules[i].outcome
  {
    if rules != [] && !MatchesAny(s, rules[0].keywords) {
      FirstMatchLabels(s, rules[1..], default);
      if FirstMatch(s, rules, default) != default {
        var i :| 0 <= i < |rules[1..]| && FirstMatch(s, rules[1..], default) == rules[1..][i].outcome;
        assert FirstMatch(s, rules, default) == rules[i + 1].outcome;
      }
    }
  }

  /** The same keyword groups with every label passed through `f`. */
  function Relabel<L, M>(rules: seq<Rule<L>>, f: L -> M): (r: seq<Rule<M>>)
    ensures |r| == |rules|
    ensures forall i :: 0 <= i < |rules| ==> r[i] == Rule(rules[i].keywords, f(rules[i].outcome))
  {
    if rules == [] then [] else [Rule(rules[0].keywords, f(rules[0].outcome))] + Relabel(rules[1..], f)
  }

  /**
   * Two cascades over the same keyword groups pick the same branch: relabelling
   * the rules relabels the outcome.
   */
  lemma {:induction false} RelabelFirstMatch<L, M>(s: string, rules: seq<Rule<L>>, default: L, f: L -> M)
    ensures FirstMatch(s, Relabel(rules, f), f(default)) == f(FirstMatch(s, rules, default))
  {
    if rules != [] {
      RelabelFirstMatch(s, rules[1..], default, f);
      assert Relabel(rules, f)[1..] == Relabel(rules[1..], f);
    }
  }

  /** A cascade that is another one with its outcomes renamed picks the renamed outcome. */
  lemma SameKeywordsAgree<L, M>(s: string, rules: seq<Rule<L>>, default: L, f: L -> M,
                                 renamed: seq<Rule<M>>, renamedDefault: M)
    requires renamed == Relabel(rules, f) && renamedDefault == f(default)
    ensures FirstMatch(s, renamed, renamedDefault) == f(FirstMatch(s, rules, default))
  {
    RelabelFirstMatch(s, rules, default, f);
  }

  /** A group of one keyword matches exactly when that keyword occurs. */
  lemma SingleKeyword(s: string, words: seq<string>)
    requires |words| == 1
    ensures MatchesAny(s, words) <==> ContainsIgnoreCase(s, words[0])
  {
    assert words[1..] == [];
  }

  /**
   * For rules of one keyword each whose labels all differ from the default,
   * the default is returned exactly when no keyword occurs.
   */
  lemma {:induction false} DefaultIffNoKeyword<L>(s: string, rules: seq<Rule<L>>, default: L)
    requires forall i :: 0 <= i < |rules| ==> |rules[i].keywords| == 1 && rules[i].outcome != default
    ensures FirstMatch(s, rules, default) == default <==>
      forall i :: 0 <= i < |rules| ==> !ContainsIgnoreCase(s, rules[i].keywords[0])
  {
    if rules != [] {
      SingleKeyword(s, rules[0].keywords);
      DefaultIffNoKeyword(s, rules[1..], default);
      if !MatchesAny(s, rules[0].keywords) {
        assert forall i :: 1 <= i < |rules| ==> rules[i] == rules[1..][i - 1];
      }
    }
  }
}
