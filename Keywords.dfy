/** Keyword tests over lower-cased text and first-match rule cascades: the
    `any(word in text for word in [...])` tests chained by `if/elif/else`
    that classify titles, companies, levels and skills. */
module Keywords {
  import opened Strings

  /** `any(w in text for w in words)` */
  predicate AnyIn(text: string, words: seq<string>) {
    exists i :: 0 <= i < |words| && Contains(text, words[i])
  }

  /** `sum(1 for w in words if w in text)` */
  function MatchCount(text: string, words: seq<string>): (n: nat)
    ensures n <= |words|
  {
    if words == [] then 0
    else (if Contains(text, words[0]) then 1 else 0) + MatchCount(text, words[1..])
  }

  /** Some keyword occurs exactly when the count is positive. */
  lemma {:induction false} MatchCountPositive(text: string, words: seq<string>)
    ensures MatchCount(text, words) > 0 <==> AnyIn(text, words)
  {
    if words != [] {
      MatchCountPositive(text, words[1..]);
      if AnyIn(text, words[1..]) {
        var i :| 0 <= i < |words[1..]| && Contains(text, words[1..][i]);
        assert Contains(text, words[i + 1]);
      }
      if AnyIn(text, words) && !Contains(text, words[0]) {
        var i :| 0 <= i < |words| && Contains(text, words[i]);
        assert i != 0;
        assert Contains(text, words[1..][i - 1]);
      }
    }
  }

  /** Two or more matches exactly when two different entries of the list occur. */
  lemma {:induction false} MatchCountTwo(text: string, words: seq<string>)
    ensures MatchCount(text, words) >= 2 <==>
      exists i, j :: 0 <= i < j < |words| && Contains(text, words[i]) && Contains(text, words[j])
  {
    if words != [] {
      var rest := words[1..];
      MatchCountTwo(text, rest);
      MatchCountPositive(text, rest);
      if MatchCount(text, words) >= 2 {
        if MatchCount(text, rest) >= 2 {
          var i, j :| 0 <= i < j < |rest| && Contains(text, rest[i]) && Contains(text, rest[j]);
          assert Contains(text, words[i + 1]) && Contains(text, words[j + 1]);
        } else {
          var j :| 0 <= j < |rest| && Contains(text, rest[j]);
          assert Contains(text, words[0]) && Contains(text, words[j + 1]);
        }
      }
      if exists i, j :: 0 <= i < j < |words| && Contains(text, words[i]) && Contains(text, words[j]) {
        var i, j :| 0 <= i < j < |words| && Contains(text, words[i]) && Contains(text, words[j]);
        assert Contains(text, rest[j - 1]);
        if i > 0 {
          assert Contains(text, rest[i - 1]);
        }
      }
    }
  }

  /** One branch of an `if/elif` chain: when any of `words` occurs, the
      answer is `answer`. */
  datatype Rule<L> = Rule(words: seq<string>, answer: L)

  /** The first rule with a keyword in `text` decides; `otherwise` when none has. */
  function Cascade<L>(text: string, rules: seq<Rule<L>>, otherwise: L): L {
    if rules == [] then otherwise
    else if AnyIn(text, rules[0].words) then rules[0].answer
    else Cascade(text, rules[1..], otherwise)
  }

  /** The rule that fires is the first one whose keywords occur. */
  lemma {:induction false} CascadeFirstMatch<L>(text: string, rules: seq<Rule<L>>, otherwise: L, k: nat)
    requires k < |rules| && AnyIn(text, rules[k].words)
    requires forall j :: 0 <= j < k ==> !AnyIn(text, rules[j].words)
    ensures Cascade(text, rules, otherwise) == rules[k].answer
  {
    if k > 0 {
      assert !AnyIn(text, rules[0].words);
      CascadeFirstMatch(text, rules[1..], otherwise, k - 1);
    }
  }

  /** Once some rule fires, the fallback plays no part. */
  lemma {:induction false} CascadeIgnoresFallback<L>(text: string, rules: seq<Rule<L>>, a: L, b: L, k: nat)
    requires k < |rules| && AnyIn(text, rules[k].words)
    ensures Cascade(text, rules, a) == Cascade(text, rules, b)
  {
    if !AnyIn(text, rules[0].words) {
      CascadeIgnoresFallback(text, rules[1..], a, b, k - 1);
    }
  }

  /** With no keyword of any rule in `text`, the fallback answer is given. */
  lemma {:induction false} CascadeNoMatch<L>(text: string, rules: seq<Rule<L>>, otherwise: L)
    requires forall j :: 0 <= j < |rules| ==> !AnyIn(text, rules[j].words)
    ensures Cascade(text, rules, otherwise) == otherwise
  {
    if rules != [] {
      CascadeNoMatch(text, rules[1..], otherwise);
    }
  }

  /** Every answer is the fallback or the label of a rule that fired. */
  lemma {:induction false} CascadeOutcome<L>(text: string, rules: seq<Rule<L>>, otherwise: L)
    ensures var r := Cascade(text, rules, otherwise);
      (r == otherwise && forall j :: 0 <= j < |rules| ==> !AnyIn(text, rules[j].words)) ||
      (exists k :: 0 <= k < |rules| && AnyIn(text, rules[k].words) && r == rules[k].answer &&
         forall j :: 0 <= j < k ==> !AnyIn(text, rules[j].words))
  {
    if rules != [] && !AnyIn(text, rules[0].words) {
      CascadeOutcome(text, rules[1..], otherwise);
      var r := Cascade(text, rules, otherwise);
      if exists k :: 0 <= k < |rules[1..]| && AnyIn(text, rules[1..][k].words) && r == rules[1..][k].answer &&
           forall j :: 0 <= j < k ==> !AnyIn(text, rules[1..][j].words) {
        var k :| 0 <= k < |rules[1..]| && AnyIn(text, rules[1..][k].words) && r == rules[1..][k].answer &&
           forall j :: 0 <= j < k ==> !AnyIn(text, rules[1..][j].words);
        assert forall j :: 0 <= j < k + 1 ==> !AnyIn(text, rules[j].words) by {
          forall j | 0 <= j < k + 1 ensures !AnyIn(text, rules[j].words) {
            if j > 0 {
              assert rules[j] == rules[1..][j - 1];
            }
          }
        }
      } else {
        assert forall j :: 0 <= j < |rules| ==> !AnyIn(text, rules[j].words) by {
          forall j | 0 <= j < |rules| ensures !AnyIn(text, rules[j].words) {
            if j > 0 {
              assert rules[j] == rules[1..][j - 1];
            }
          }
        }
      }
    } else if rules != [] {
      assert AnyIn(text, rules[0].words);
    }
  }

  /** The answers a cascade can give. */
  function Labels<L>(rules: seq<Rule<L>>, otherwise: L): (ls: seq<L>)
    ensures |ls| == |rules| + 1 && ls[|rules|] == otherwise
    ensures forall k :: 0 <= k < |rules| ==> ls[k] == rules[k].answer
  {
    seq(|rules| + 1, k requires 0 <= k <= |rules| => if k < |rules| then rules[k].answer else otherwise)
  }

  lemma CascadeLabel<L>(text: string, rules: seq<Rule<L>>, otherwise: L)
    ensures Cascade(text, rules, otherwise) in Labels(rules, otherwise)
  {
    CascadeOutcome(text, rules, otherwise);
    var ls := Labels(rules, otherwise);
    var r := Cascade(text, rules, otherwise);
    if r != otherwise {
      var k :| 0 <= k < |rules| && AnyIn(text, rules[k].words) && r == rules[k].answer &&
         forall j :: 0 <= j < k ==> !AnyIn(text, rules[j].words);
      assert ls[k] == r;
    } else {
      assert ls[|rules|] == r;
    }
  }
}
