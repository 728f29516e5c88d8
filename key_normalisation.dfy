/** The key normalisation of the batch data validator (data-validator.js):
    keys are lower-cased and every run of whitespace becomes one `_`. */
module KeyNormalisation {
  import opened JsValues

  /** `s.replace(/\s+/g, '_')`: every maximal run of whitespace becomes one
      `_`; `inRun` says whether the character before `s` was whitespace. */
  function SpaceRuns(s: string, inRun: bool): (r: string)
    ensures |r| <= |s|
  {
    if s == [] then []
    else if IsSpace(s[0]) then (if inRun then [] else "_") + SpaceRuns(s[1..], true)
    else [s[0]] + SpaceRuns(s[1..], false)
  }

  /** The replacement leaves no whitespace and no upper-case letter it was
      not given, and changes nothing in a string without whitespace. */
  lemma {:induction false} SpaceRunsProperties(s: string, inRun: bool)
    ensures forall i :: 0 <= i < |SpaceRuns(s, inRun)| ==> !IsSpace(SpaceRuns(s, inRun)[i])
    ensures (forall i :: 0 <= i < |s| ==> !IsUpper(s[i])) ==>
      forall i :: 0 <= i < |SpaceRuns(s, inRun)| ==> !IsUpper(SpaceRuns(s, inRun)[i])
    ensures (forall i :: 0 <= i < |s| ==> !IsSpace(s[i])) ==> SpaceRuns(s, inRun) == s
  {
    if s != [] {
      SpaceRunsProperties(s[1..], IsSpace(s[0]));
      assert forall i :: 1 <= i < |s| ==> s[1..][i - 1] == s[i];
    }
  }

  /** `key.toLowerCase().replace(/\s+/g, '_')`: the form in which a sample's
      keys are compared with the required fields. */
  function NormalizeKey(key: string): (r: string)
    ensures |r| <= |key|
  {
    SpaceRuns(ToLower(key), false)
  }

  /** A normalised key holds no whitespace and no upper-case letter. */
  lemma NormalizedForm(key: string)
    ensures forall i :: 0 <= i < |NormalizeKey(key)| ==>
      !IsSpace(NormalizeKey(key)[i]) && !IsUpper(NormalizeKey(key)[i])
  {
    SpaceRunsProperties(ToLower(key), false);
  }

  /** A normalised key is its own normal form. */
  lemma NormalizeIdempotent(key: string)
    ensures NormalizeKey(NormalizeKey(key)) == NormalizeKey(key)
  {
    var k := NormalizeKey(key);
    NormalizedForm(key);
    ToLowerIdentity(k);
    SpaceRunsProperties(k, false);
  }

  /** A key without whitespace is only lower-cased. */
  lemma NormalizeWithoutSpace(key: string)
    requires forall i :: 0 <= i < |key| ==> !IsSpace(key[i])
    ensures NormalizeKey(key) == ToLower(key)
  {
    SpaceRunsProperties(ToLower(key), false);
  }

  /** A non-empty word without whitespace is copied, and ends any run. */
  lemma {:induction false} SpaceRunsWord(w: string, rest: string, inRun: bool)
    requires w != [] && forall i :: 0 <= i < |w| ==> !IsSpace(w[i])
    ensures SpaceRuns(w + rest, inRun) == w + SpaceRuns(rest, false)
    decreases |w|
  {
    assert (w + rest)[0] == w[0];
    assert (w + rest)[1..] == w[1..] + rest;
    if |w| > 1 {
      SpaceRunsWord(w[1..], rest, false);
    }
  }

  /** A non-empty run of whitespace becomes one `_` unless it continues a
      run, and the text after it starts outside no run. */
  lemma {:induction false} SpaceRunsRun(w: string, rest: string, inRun: bool)
    requires w != [] && forall i :: 0 <= i < |w| ==> IsSpace(w[i])
    ensures SpaceRuns(w + rest, inRun) == (if inRun then "" else "_") + SpaceRuns(rest, true)
    decreases |w|
  {
    assert (w + rest)[0] == w[0];
    assert (w + rest)[1..] == w[1..] + rest;
    if |w| > 1 {
      SpaceRunsRun(w[1..], rest, true);
    }
  }

  /** Lower-casing works character by character, so it distributes over
      concatenation. */
  lemma ToLowerAppend(x: string, y: string)
    ensures ToLower(x + y) == ToLower(x) + ToLower(y)
  {
    assert forall i :: 0 <= i < |x + y| ==> (x + y)[i] == if i < |x| then x[i] else y[i - |x|];
  }

  /** Two space-free words around a run of whitespace: the run becomes one `_`. */
  lemma SpaceRunsAroundRun(a: string, sep: string, b: string)
    requires a != [] && forall i :: 0 <= i < |a| ==> !IsSpace(a[i])
    requires sep != [] && forall i :: 0 <= i < |sep| ==> IsSpace(sep[i])
    requires b != [] && forall i :: 0 <= i < |b| ==> !IsSpace(b[i])
    ensures SpaceRuns(a + (sep + b), false) == a + ("_" + b)
  {
    SpaceRunsWord(a, sep + b, false);
    SpaceRunsRun(sep, b, false);
    SpaceRunsWord(b, [], true);
    assert b + [] == b;
  }

  /** Lower-casing a heading lower-cases each of its parts. */
  lemma ToLowerThree(a: string, sep: string, b: string)
    ensures ToLower(a + sep + b) == ToLower(a) + (ToLower(sep) + ToLower(b))
  {
    assert a + sep + b == a + (sep + b);
    ToLowerAppend(a, sep + b);
    ToLowerAppend(sep, b);
  }

  /** A heading of two words such as `IC Name` becomes its lower-cased words
      joined by one `_`, however long the whitespace between them. */
  lemma NormalizeTwoWords(a: string, sep: string, b: string)
    requires a != [] && forall i :: 0 <= i < |a| ==> !IsSpace(a[i])
    requires sep != [] && forall i :: 0 <= i < |sep| ==> IsSpace(sep[i])
    requires b != [] && forall i :: 0 <= i < |b| ==> !IsSpace(b[i])
    ensures NormalizeKey(a + sep + b) == ToLower(a) + "_" + ToLower(b)
  {
    var la, ls, lb := ToLower(a), ToLower(sep), ToLower(b);
    ToLowerThree(a, sep, b);
    LowerWord(a);
    LowerRun(sep);
    LowerWord(b);
    SpaceRunsAroundRun(la, ls, lb);
    assert la + ("_" + lb) == la + "_" + lb;
  }

  /** A lower-cased word is still a non-empty word without whitespace. */
  lemma LowerWord(w: string)
    requires w != [] && forall i :: 0 <= i < |w| ==> !IsSpace(w[i])
    ensures ToLower(w) != [] && forall i :: 0 <= i < |ToLower(w)| ==> !IsSpace(ToLower(w)[i])
  {
    LowerKeepsSpaces(w);
  }

  /** A lower-cased run of whitespace is still a non-empty run. */
  lemma LowerRun(w: string)
    requires w != [] && forall i :: 0 <= i < |w| ==> IsSpace(w[i])
    ensures ToLower(w) != [] && forall i :: 0 <= i < |ToLower(w)| ==> IsSpace(ToLower(w)[i])
  {
    LowerKeepsSpaces(w);
  }

  /** Lower-casing adds and removes no whitespace. */
  lemma LowerKeepsSpaces(s: string)
    ensures forall i :: 0 <= i < |s| ==> (IsSpace(ToLower(s)[i]) <==> IsSpace(s[i]))
  {
  }

  /** A sheet's `IC Name` heading satisfies the `ic_name` requirement. */
  lemma IcNameNormalises()
    ensures NormalizeKey("IC Name") == "ic_name"
  {
    calc {
      NormalizeKey("IC Name");
    ==  { assert "IC Name" == "IC" + " " + "Name"; }
      NormalizeKey("IC" + " " + "Name");
    ==  { NormalizeTwoWords("IC", " ", "Name"); }
      ToLower("IC") + "_" + ToLower("Name");
    ==  { assert ToLower("IC") == "ic";
          assert ToLower("Name") == "name"; }
      "ic_name";
    }
  }

  /** A doubled space is one run, so it still gives a single `_`. */
  lemma IcNameDoubleSpaceNormalises()
    ensures NormalizeKey("IC  Name") == "ic_name"
  {
    calc {
      NormalizeKey("IC  Name");
    ==  { assert "IC  Name" == "IC" + "  " + "Name"; }
      NormalizeKey("IC" + "  " + "Name");
    ==  { NormalizeTwoWords("IC", "  ", "Name"); }
      ToLower("IC") + "_" + ToLower("Name");
    ==  { assert ToLower("IC") == "ic";
          assert ToLower("Name") == "name"; }
      "ic_name";
    }
  }
}
