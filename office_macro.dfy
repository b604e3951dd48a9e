/**
 * The office_macro signature: it matches when the static analysis found
 * macro code, rewords its description by the number of macros, and raises
 * its severity and records each distinct string carrying a phishing lure.
 */
module OfficeMacro {
  import opened Wrappers
  import opened Text

  /** The parts of the analysis results the signature looks at. */
  datatype Results = Results(staticAnalysis: Option<StaticAnalysis>, strings: Option<seq<string>>)
  /** `results["static"]` */
  datatype StaticAnalysis = StaticAnalysis(macro: Option<MacroSection>)
  /** `results["static"]["Macro"]`; `code` is its "Code" collection, one entry per macro. */
  datatype MacroSection = MacroSection(code: Option<seq<string>>)

  /** `results["static"]["Macro"]["Code"]`, when every key on the way is present. */
  function MacroCode(r: Results): (c: Option<seq<string>>)
    ensures c.Some? <==> r.staticAnalysis.Some? && r.staticAnalysis.value.macro.Some?
                         && r.staticAnalysis.value.macro.value.code.Some?
    ensures c.Some? ==> c.value == r.staticAnalysis.value.macro.value.code.value
  {
    match r.staticAnalysis
    case None => None
    case Some(st) =>
      match st.macro
      case None => None
      case Some(m) => m.code
  }

  /** Python 2's `str.lower()` on one character: ASCII letters only. */
  function LowerChar(c: char): char {
    if 'A' <= c <= 'Z' then (c as int + 32) as char else c
  }

  function Lower(s: string): (r: string)
    ensures |r| == |s| && forall i :: 0 <= i < |s| ==> r[i] == LowerChar(s[i])
  {
    seq(|s|, i requires 0 <= i < |s| => LowerChar(s[i]))
  }

  predicate OccursAt(hay: string, needle: string, i: int) {
    0 <= i && i + |needle| <= |hay| && hay[i..i + |needle|] == needle
  }

  lemma OccursShifted(hay: string, needle: string, i: int)
    requires 1 <= i && |hay| > 0
    ensures OccursAt(hay, needle, i) <==> OccursAt(hay[1..], needle, i - 1)
  {
    if i + |needle| <= |hay| {
      assert hay[1..][i - 1..i - 1 + |needle|] == hay[i..i + |needle|];
    }
  }

  /** Python's `needle in hay` for strings. */
  function Contains(hay: string, needle: string): (r: bool)
    ensures r <==> exists i :: OccursAt(hay, needle, i)
    decreases |hay|
  {
    if |needle| > |hay| then false
    else if hay[..|needle|] == needle then
      assert OccursAt(hay, needle, 0);
      true
    else
      var rest := Contains(hay[1..], needle);
      forall i | 1 <= i ensures OccursAt(hay, needle, i) <==> OccursAt(hay[1..], needle, i - 1) {
        OccursShifted(hay, needle, i);
      }
      assert rest ==> exists i :: OccursAt(hay, needle, i) by {
        if rest {
          var j :| OccursAt(hay[1..], needle, j);
          assert OccursAt(hay, needle, j + 1);
        }
      }
      rest
  }

  const Lures: seq<string> := ["bank account", "enable content", "tools > macro", "macros must be enabled"]

  /** The lowercase string contains one of the four lures. */
  predicate HasLure(s: string) {
    exists j :: 0 <= j < |Lures| && Contains(Lower(s), Lures[j])
  }

  /** The four lures, written out. */
  lemma LuresSpelledOut(s: string)
    ensures HasLure(s) <==> Contains(Lower(s), "bank account") || Contains(Lower(s), "enable content")
                            || Contains(Lower(s), "tools > macro") || Contains(Lower(s), "macros must be enabled")
  {
    assert Lures[0] == "bank account" && Lures[1] == "enable content";
    assert Lures[2] == "tools > macro" && Lures[3] == "macros must be enabled";
  }

  /**
   * `positives` after the loop over `strs`: each string with a lure,
   * appended when it is not already there.
   */
  function Positives(strs: seq<string>): (r: seq<string>)
    ensures |r| <= |strs|
    decreases |strs|
  {
    if strs == [] then []
    else
      var p := Positives(strs[..|strs| - 1]);
      var s := strs[|strs| - 1];
      if HasLure(s) && s !in p then p + [s] else p
  }

  /** A string is a positive exactly when it occurs among the strings and carries a lure. */
  lemma {:induction false} PositivesMembers(strs: seq<string>)
    ensures forall x :: x in Positives(strs) <==> x in strs && HasLure(x)
    decreases |strs|
  {
    if strs != [] {
      var init := strs[..|strs| - 1];
      PositivesMembers(init);
      assert strs == init + [strs[|strs| - 1]];
    }
  }

  predicate Distinct(s: seq<string>) {
    forall i, j :: 0 <= i < j < |s| ==> s[i] != s[j]
  }

  lemma {:induction false} PositivesDistinct(strs: seq<string>)
    ensures Distinct(Positives(strs))
    decreases |strs|
  {
    if strs != [] {
      PositivesDistinct(strs[..|strs| - 1]);
    }
  }

  /** The index of the first occurrence of `x`. */
  function FirstIndex(s: seq<string>, x: string): (r: nat)
    requires x in s
    ensures r < |s| && s[r] == x && x !in s[..r]
  {
    if s[0] == x then 0 else
      var t := FirstIndex(s[1..], x);
      assert s[..t + 1] == [s[0]] + s[1..][..t];
      t + 1
  }

  lemma FirstIndexUnique(s: seq<string>, x: string, r: nat)
    requires r < |s| && s[r] == x && x !in s[..r]
    ensures FirstIndex(s, x) == r
  {
  }

  /** Appending keeps the first occurrence of what was already there. */
  lemma FirstIndexAppend(s: seq<string>, y: string, x: string)
    requires x in s
    ensures FirstIndex(s + [y], x) == FirstIndex(s, x)
  {
    var f := FirstIndex(s, x);
    assert (s + [y])[..f] == s[..f];
    FirstIndexUnique(s + [y], x, f);
  }

  /** The positives are in the order in which each first occurs among the strings. */
  lemma {:induction false} PositivesFirstSeenOrder(strs: seq<string>)
    ensures forall x :: x in Positives(strs) ==> x in strs
    ensures forall i, j :: 0 <= i < j < |Positives(strs)| ==>
      FirstIndex(strs, Positives(strs)[i]) < FirstIndex(strs, Positives(strs)[j])
    decreases |strs|
  {
    PositivesMembers(strs);
    if strs != [] {
      var init := strs[..|strs| - 1];
      var s := strs[|strs| - 1];
      assert strs == init + [s];
      PositivesFirstSeenOrder(init);
      PositivesMembers(init);
      var q := Positives(init);
      var p := Positives(strs);
      forall x | x in q ensures FirstIndex(strs, x) == FirstIndex(init, x) {
        FirstIndexAppend(init, s, x);
      }
      if HasLure(s) && s !in q {
        assert p == q + [s];
        assert s !in init;
        FirstIndexUnique(strs, s, |strs| - 1);
        forall i, j | 0 <= i < j < |p| ensures FirstIndex(strs, p[i]) < FirstIndex(strs, p[j]) {
          assert p[i] == q[i];
          FirstIndexAppend(init, s, q[i]);
          if j < |q| {
            assert p[j] == q[j];
            FirstIndexAppend(init, s, q[j]);
            assert FirstIndex(init, q[i]) < FirstIndex(init, q[j]);
          } else {
            assert p[j] == s;
            assert FirstIndex(init, q[i]) < |init|;
            assert FirstIndex(strs, s) == |init|;
          }
        }
      }
    }
  }

  const PhishingSuffix := " The file also appears to have strings indicating common phishing lures."

  /** The description for `total` macros: reworded only when there are more than one. */
  function MacroDescription(total: nat, description: string): (r: string)
    ensures total > 1 ==> r == "The office file has " + NatToString(total) + " macros."
    ensures total <= 1 ==> r == description
  {
    if total > 1 then "The office file has " + NatToString(total) + " macros." else description
  }

  /** One `{"Lure": p}` record per positive, in order. */
  function LureEntries(ps: seq<string>): (r: seq<map<string, string>>)
    ensures |r| == |ps| && forall i :: 0 <= i < |ps| ==> r[i] == map["Lure" := ps[i]]
  {
    seq(|ps|, i requires 0 <= i < |ps| => map["Lure" := ps[i]])
  }

  /** The strings the lure scan looks at: only when macros were found and there are strings. */
  function ScannedStrings(r: Results): (strs: seq<string>)
    ensures MacroCode(r).None? || r.strings.None? ==> strs == []
    ensures MacroCode(r).Some? && r.strings.Some? ==> strs == r.strings.value
  {
    if MacroCode(r).Some? && r.strings.Some? then r.strings.value else []
  }

  /** One pass of the inner loop over the lures for one string. */
  method ScanString(str: string, positives: seq<string>) returns (r: seq<string>)
    ensures r == if HasLure(str) && str !in positives then positives + [str] else positives
  {
    r := positives;
    var lowered := Lower(str);
    var j := 0;
    while j < |Lures|
      invariant 0 <= j <= |Lures|
      invariant r == if (exists m :: 0 <= m < j && Contains(lowered, Lures[m])) && str !in positives
                     then positives + [str] else positives
    {
      if Contains(lowered, Lures[j]) {
        if str !in r {
          r := r + [str];
        }
      }
      j := j + 1;
    }
  }

  /** The loop over the strings of the results, collecting the positives. */
  method CollectPositives(strs: seq<string>) returns (positives: seq<string>)
    ensures positives == Positives(strs)
  {
    positives := [];
    var i := 0;
    while i < |strs|
      invariant 0 <= i <= |strs|
      invariant positives == Positives(strs[..i])
    {
      positives := ScanString(strs[i], positives);
      assert strs[..i + 1][..i] == strs[..i];
      i := i + 1;
    }
    assert strs[..|strs|] == strs;
  }

  class Signature {
    const name: string
    const categories: seq<string>
    const authors: seq<string>
    const minimum: string
    var severity: int
    var description: string
    var data: seq<map<string, string>>

    constructor ()
      ensures severity == 2 && description == "The office file has a macro." && data == []
    {
      name := "office_macro";
      categories := ["office"];
      authors := ["KillerInstinct"];
      minimum := "0.5";
      severity := 2;
      description := "The office file has a macro.";
      data := [];
    }

    /**
     * Matches when macro code is present.  The severity, description and
     * data are rewritten only on a match; the lure scan runs only on a match
     * with strings present.
     */
    method Run(results: Results) returns (ret: bool)
      modifies this
      ensures ret <==> MacroCode(results).Some?
      ensures !ret ==> severity == old(severity) && description == old(description) && data == old(data)
      ensures var ps := Positives(ScannedStrings(results));
        var described := if ret then MacroDescription(|MacroCode(results).value|, old(description)) else old(description);
        && severity == (if ps != [] then 3 else old(severity))
        && description == (if ps != [] then described + PhishingSuffix else described)
        && data == old(data) + LureEntries(ps)
    {
      ret := false;
      var code := MacroCode(results);
      if code.Some? {
        ret := true;
        var total := |code.value|;
        if total > 1 {
          description := "The office file has " + NatToString(total) + " macros.";
        }
      }
      if ret && results.strings.Some? {
        var positives := CollectPositives(results.strings.value);
        if positives != [] {
          severity := 3;
          description := description + PhishingSuffix;
          ghost var described := description;
          var n := 0;
          while n < |positives|
            invariant 0 <= n <= |positives|
            invariant severity == 3 && description == described
            invariant data == old(data) + LureEntries(positives[..n])
          {
            data := data + [map["Lure" := positives[n]]];
            n := n + 1;
          }
          assert positives[..|positives|] == positives;
        }
      }
    }
  }
}
