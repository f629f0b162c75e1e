/**
 * The ordered list of models `perguntar` tries: the primary model, then the
 * fallbacks parsed from GENAI_FALLBACK_MODELS (or the built-in list), with
 * the primary removed from among them (getDados.py:127, 149-156, 287-294).
 */
module Candidates {

  import opened Wrappers
  import opened PyStr

  /** The model used when GENAI_MODEL is unset. */
  const DefaultModel := "gemini-pro-latest"

  /** The fallbacks used when GENAI_FALLBACK_MODELS is unset or empty. */
  const DefaultFallbacks: seq<string> :=
    ["gemini-pro-latest", "gemini-3-pro-preview", "gemini-2.5-pro", "gemini-2.5-flash", "gemini-3-flash-preview"]

  /** A usable fallback name: non-blank, already stripped and free of commas. */
  predicate WellFormedName(m: string) {
    m != "" && Trimmed(m) && ',' !in m
  }

  /** `os.getenv("GENAI_MODEL", DefaultModel)`: a set variable is used as it
      is, even when empty, and is never stripped. */
  function PrimaryModel(env: Option<string>): (m: string)
    ensures env.Some? ==> m == env.value
    ensures env.None? ==> m == DefaultModel
  {
    env.GetOr(DefaultModel)
  }

  /** `[p.strip() for p in pieces if p.strip()]`. */
  function KeepNonBlank(pieces: seq<string>): (r: seq<string>)
    ensures |r| <= |pieces|
    ensures forall k :: 0 <= k < |r| ==> r[k] != "" && Trimmed(r[k])
    decreases |pieces|
  {
    if pieces == [] then []
    else
      var m := Strip(pieces[0]);
      if m != "" then [m] + KeepNonBlank(pieces[1..]) else KeepNonBlank(pieces[1..])
  }

  /** `[m.strip() for m in s.split(",") if m.strip()]` (getDados.py:151):
      the stripped, non-blank entries of a comma-separated list, in order. */
  function ParseOverride(s: string): (r: seq<string>)
    ensures forall k :: 0 <= k < |r| ==> WellFormedName(r[k])
  {
    var r := KeepNonBlank(Split(s, ','));
    forall k | 0 <= k < |r| ensures ',' !in r[k] {
      KeepNonBlankFromPieces(Split(s, ','), ',', k);
    }
    r
  }

  /** The fallback list (getDados.py:149-154): the built-in list when the
      variable is unset or empty, otherwise the parsed override, which may
      be empty. */
  function ParseFallbacks(env: Option<string>): (r: seq<string>)
    ensures !Truthy(env) ==> r == DefaultFallbacks
    ensures forall k :: 0 <= k < |r| ==> WellFormedName(r[k])
  {
    if Truthy(env) then ParseOverride(env.value) else DefaultFallbacks
  }

  /** Stripping never introduces a character, so entries kept from pieces
      without a separator have none either. */
  lemma {:induction false} KeepNonBlankFromPieces(pieces: seq<string>, c: char, k: nat)
    requires forall j :: 0 <= j < |pieces| ==> c !in pieces[j]
    requires k < |KeepNonBlank(pieces)|
    ensures c !in KeepNonBlank(pieces)[k]
    decreases |pieces|
  {
    var p := pieces[0];
    var m := Strip(p);
    if m != "" && k == 0 {
      StripKeepsAbsent(p, c);
    } else {
      KeepNonBlankFromPieces(pieces[1..], c, if m != "" then k - 1 else k);
    }
  }

  /** `[f for f in fallbacks if f != m]`. */
  function Without(fallbacks: seq<string>, m: string): (r: seq<string>)
    ensures m !in r
    ensures |r| <= |fallbacks|
    ensures forall x :: x != m ==> multiset(r)[x] == multiset(fallbacks)[x]
    decreases |fallbacks|
  {
    if fallbacks == [] then []
    else
      var rest := Without(fallbacks[1..], m);
      assert fallbacks == [fallbacks[0]] + fallbacks[1..];
      if fallbacks[0] != m then [fallbacks[0]] + rest else rest
  }

  /** `models_to_try` (getDados.py:156, 294): the primary first and exactly
      once; every other name as often as among the fallbacks. */
  function ModelsToTry(primary: string, fallbacks: seq<string>): (r: seq<string>)
    ensures |r| >= 1 && r[0] == primary
    ensures multiset(r)[primary] == 1
    ensures forall x :: x != primary ==> multiset(r)[x] == multiset(fallbacks)[x]
  {
    var rest := Without(fallbacks, primary);
    assert multiset([primary] + rest) == multiset{primary} + multiset(rest);
    [primary] + rest
  }

  /** `a` is `b` with some elements left out, the rest in their order. */
  predicate IsSubsequence(a: seq<string>, b: seq<string>)
    decreases |b|
  {
    if a == [] then true
    else if b == [] then false
    else (a[0] == b[0] && IsSubsequence(a[1..], b[1..])) || IsSubsequence(a, b[1..])
  }

  /** The fallbacks after the primary keep their relative order. */
  lemma {:induction false} WithoutKeepsOrder(fallbacks: seq<string>, m: string)
    ensures IsSubsequence(Without(fallbacks, m), fallbacks)
    decreases |fallbacks|
  {
    if fallbacks != [] {
      WithoutKeepsOrder(fallbacks[1..], m);
      var rest := Without(fallbacks[1..], m);
      if fallbacks[0] != m {
        assert ([fallbacks[0]] + rest)[1..] == rest;
      }
    }
  }

  /** Nothing is dropped but the primary: a list without the primary is kept whole. */
  lemma {:induction false} WithoutAbsent(fallbacks: seq<string>, m: string)
    requires m !in fallbacks
    ensures Without(fallbacks, m) == fallbacks
    decreases |fallbacks|
  {
    if fallbacks != [] {
      assert fallbacks[0] != m;
      WithoutAbsent(fallbacks[1..], m);
      assert [fallbacks[0]] + fallbacks[1..] == fallbacks;
    }
  }

  /** The list of candidates: primary, then the fallbacks in their order. */
  lemma CandidatesInOrder(primary: string, fallbacks: seq<string>)
    ensures IsSubsequence(ModelsToTry(primary, fallbacks)[1..], fallbacks)
    ensures primary !in fallbacks ==> ModelsToTry(primary, fallbacks) == [primary] + fallbacks
  {
    WithoutKeepsOrder(fallbacks, primary);
    assert ModelsToTry(primary, fallbacks)[1..] == Without(fallbacks, primary);
    if primary !in fallbacks { WithoutAbsent(fallbacks, primary); }
  }

  /** The primary is tried once, first: it occurs nowhere after position 0. */
  lemma PrimaryOnlyFirst(primary: string, fallbacks: seq<string>, k: nat)
    requires 0 < k < |ModelsToTry(primary, fallbacks)|
    ensures ModelsToTry(primary, fallbacks)[k] != primary
  {
    var r := ModelsToTry(primary, fallbacks);
    assert r[k] == Without(fallbacks, primary)[k - 1];
  }

  /** Parsing a comma-joined list of well-formed names gives the list back. */
  lemma ParseRoundTrip(names: seq<string>)
    requires |names| >= 1
    requires forall k :: 0 <= k < |names| ==> WellFormedName(names[k])
    ensures Join(names, ",") != ""
    ensures ParseOverride(Join(names, ",")) == names
  {
    assert |Join(names, ",")| >= |names[0]|;
    SplitJoin(names, ',');
    KeepNonBlankWellFormed(names);
  }

  lemma {:induction false} KeepNonBlankWellFormed(names: seq<string>)
    requires forall k :: 0 <= k < |names| ==> WellFormedName(names[k])
    ensures KeepNonBlank(names) == names
    decreases |names|
  {
    if names != [] {
      StripTrimmed(names[0]);
      KeepNonBlankWellFormed(names[1..]);
      assert [names[0]] + names[1..] == names;
    }
  }

  /** A non-empty variable holding only whitespace and commas yields no
      fallbacks at all, not the built-in list. */
  lemma BlankOverrideGivesNoFallbacks(s: string)
    requires s != ""
    requires forall j :: 0 <= j < |s| ==> IsSpace(s[j]) || s[j] == ','
    ensures ParseFallbacks(Some(s)) == []
  {
    assert s[0] in s;
    var pieces := Split(s, ',');
    forall k | 0 <= k < |pieces| ensures Strip(pieces[k]) == "" {
      JoinSplit(s, ',');
      JoinContains(pieces, ",", k);
      ContainsIff(s, pieces[k]);
      var i :| OccursAt(s, pieces[k], i);
      forall j | 0 <= j < |pieces[k]| ensures IsSpace(pieces[k][j]) {
        assert pieces[k][j] == s[i + j];
      }
      StripEmptyIff(pieces[k]);
    }
    AllBlankKeepsNothing(pieces);
  }

  lemma {:induction false} AllBlankKeepsNothing(pieces: seq<string>)
    requires forall k :: 0 <= k < |pieces| ==> Strip(pieces[k]) == ""
    ensures KeepNonBlank(pieces) == []
    decreases |pieces|
  {
    if pieces != [] { AllBlankKeepsNothing(pieces[1..]); }
  }

  /** Every piece that is not blank is kept, stripped, in its place: with no
      blank piece, the filter is `strip` applied to each piece. */
  lemma {:induction false} KeepNonBlankPadded(pieces: seq<string>)
    requires forall k :: 0 <= k < |pieces| ==> Strip(pieces[k]) != ""
    ensures KeepNonBlank(pieces) == seq(|pieces|, k requires 0 <= k < |pieces| => Strip(pieces[k]))
    decreases |pieces|
  {
    if pieces != [] {
      KeepNonBlankPadded(pieces[1..]);
    }
  }

  /** The filter works piece by piece: blank pieces between names drop out
      without disturbing the others. */
  lemma {:induction false} KeepNonBlankAppend(a: seq<string>, b: seq<string>)
    ensures KeepNonBlank(a + b) == KeepNonBlank(a) + KeepNonBlank(b)
    decreases |a|
  {
    if a == [] {
      assert a + b == b;
    } else {
      assert (a + b)[0] == a[0];
      assert (a + b)[1..] == a[1..] + b;
      KeepNonBlankAppend(a[1..], b);
    }
  }

  /** Parsing a comma-joined list of comma-free entries is the blank filter
      applied to those entries. */
  lemma ParseOverrideJoin(entries: seq<string>)
    requires |entries| >= 1
    requires forall k :: 0 <= k < |entries| ==> ',' !in entries[k]
    ensures ParseOverride(Join(entries, ",")) == KeepNonBlank(entries)
  {
    SplitJoin(entries, ',');
  }

  /** A list written with spaces around its names, such as "a, b", gives the
      names stripped and in their order. */
  lemma ParsePaddedList(entries: seq<string>)
    requires |entries| >= 1
    requires forall k :: 0 <= k < |entries| ==> ',' !in entries[k] && Strip(entries[k]) != ""
    ensures ParseOverride(Join(entries, ",")) == seq(|entries|, k requires 0 <= k < |entries| => Strip(entries[k]))
  {
    ParseOverrideJoin(entries);
    KeepNonBlankPadded(entries);
  }
}
