/**
 * `snake_it`: CamelCase class names to snake_case table names, by a regular
 * expression that inserts `_` in front of upper-case letters, followed by
 * `lower()`.  Two versions exist: the current one does not insert after the
 * start of the string or after an `_`; the legacy one only skips the start.
 */
module SnakeCase {
  import opened Wrappers
  import opened ModelTypes

  /**
   * The regular-expression substitution, scanning `s` left to right;
   * `prev` is the character before `s` (None at the start of the string).
   * `legacy` drops the `(?<!_)` look-behind.
   */
  function Substituted(s: string, prev: Option<char>, legacy: bool): string
  {
    if s == [] then []
    else
      (if InsertsBefore(s[0], prev, legacy) then "_" else "")
      + [s[0]] + Substituted(s[1..], Some(s[0]), legacy)
  }

  /** Whether the substitution puts an `_` in front of `c` whose predecessor is `prev`. */
  predicate InsertsBefore(c: char, prev: Option<char>, legacy: bool) {
    IsUpper(c) && prev.Some? && (legacy || prev.value != '_')
  }

  predicate NoUpper(s: string) {
    forall i :: 0 <= i < |s| ==> !IsUpper(s[i])
  }

  /** strawchemy/utils.py `snake_it`: `(?<!^)(?<!_)(?=[A-Z])` replaced by `_`, then lower-cased. */
  function SnakeIt(s: string): (r: string)
    ensures NoUpper(r)
  {
    Lower(Substituted(s, None, false))
  }

  /** The legacy `snake_it`: `(?<!^)(?=[A-Z])` replaced by `_`, then lower-cased. */
  function SnakeItLegacy(s: string): (r: string)
    ensures NoUpper(r)
  {
    Lower(Substituted(s, None, true))
  }

  /** `s` with every `_` removed. */
  function Unscored(s: string): (r: string)
    ensures '_' !in r
  {
    if s == [] then []
    else if s[0] == '_' then Unscored(s[1..])
    else [s[0]] + Unscored(s[1..])
  }

  /** The number of underscores the substitution inserts. */
  function Inserted(s: string, prev: Option<char>, legacy: bool): nat
  {
    if s == [] then 0
    else (if InsertsBefore(s[0], prev, legacy) then 1 else 0) + Inserted(s[1..], Some(s[0]), legacy)
  }

  // ---------------------------------------------------------------------
  // Properties of the substitution

  lemma {:induction false} SubstitutedKeepsOthers(s: string, prev: Option<char>, legacy: bool)
    ensures Unscored(Substituted(s, prev, legacy)) == Unscored(s)
  {
    if s != [] {
      var c := s[0];
      SubstitutedKeepsOthers(s[1..], Some(c), legacy);
      var rest := Substituted(s[1..], Some(c), legacy);
      var u := [c] + rest;
      assert u[0] == c && u[1..] == rest;
      UnscoredHead(u, c, rest);
      SubstitutedHead(s, prev, legacy);
      if InsertsBefore(c, prev, legacy) {
        UnscoredHead(Substituted(s, prev, legacy), '_', u);
      }
      UnscoredHead(s, c, s[1..]);
    }
  }

  /** One step of the substitution: an optional `_`, the first character, then the rest. */
  lemma SubstitutedHead(s: string, prev: Option<char>, legacy: bool)
    requires s != []
    ensures var r := Substituted(s, prev, legacy);
            var u := [s[0]] + Substituted(s[1..], Some(s[0]), legacy);
            if InsertsBefore(s[0], prev, legacy) then |r| > 0 && r[0] == '_' && r[1..] == u else r == u
  {
    var u := [s[0]] + Substituted(s[1..], Some(s[0]), legacy);
    var r := Substituted(s, prev, legacy);
    if InsertsBefore(s[0], prev, legacy) {
      assert |r| == |u| + 1;
      assert forall k :: 0 <= k < |u| ==> r[1..][k] == u[k];
    } else {
      assert "" + [s[0]] == [s[0]];
    }
  }

  /** One step of `Unscored`, for a string given by its head and tail. */
  lemma UnscoredHead(t: string, c: char, rest: string)
    requires |t| > 0 && t[0] == c && t[1..] == rest
    ensures Unscored(t) == if c == '_' then Unscored(rest) else [c] + Unscored(rest)
  {
  }

  lemma {:induction false} SubstitutedLength(s: string, prev: Option<char>, legacy: bool)
    ensures |Substituted(s, prev, legacy)| == |s| + Inserted(s, prev, legacy)
  {
    if s != [] {
      SubstitutedLength(s[1..], Some(s[0]), legacy);
    }
  }

  lemma {:induction false} UnscoredLower(s: string)
    ensures Unscored(Lower(s)) == Lower(Unscored(s))
  {
    if s != [] {
      UnscoredLower(s[1..]);
      assert Lower(s)[1..] == Lower(s[1..]);
    }
  }

  lemma {:induction false} SubstitutedWithoutUpper(s: string, prev: Option<char>, legacy: bool)
    requires NoUpper(s)
    ensures Substituted(s, prev, legacy) == s
  {
    if s != [] {
      SubstitutedWithoutUpper(s[1..], Some(s[0]), legacy);
    }
  }

  lemma {:induction false} LowerWithoutUpper(s: string)
    requires NoUpper(s)
    ensures Lower(s) == s
  {
  }

  /**
   * Apart from the `_` it inserts, `snake_it` neither adds nor removes characters:
   * with every `_` removed, the result is the lower-cased input with every `_`
   * removed, and it is longer than the input by exactly the number of insertions.
   */
  lemma SnakeItOnlyInserts(s: string)
    ensures Unscored(SnakeIt(s)) == Lower(Unscored(s))
    ensures |SnakeIt(s)| == |s| + Inserted(s, None, false)
  {
    SubstitutedKeepsOthers(s, None, false);
    SubstitutedLength(s, None, false);
    UnscoredLower(Substituted(s, None, false));
  }

  /** A string without upper-case letters, the empty string included, is returned unchanged. */
  lemma SnakeItWithoutUpper(s: string)
    requires NoUpper(s)
    ensures SnakeIt(s) == s
  {
    SubstitutedWithoutUpper(s, None, false);
  }

  /** `snake_it(snake_it(s)) == snake_it(s)` */
  lemma SnakeItIdempotent(s: string)
    ensures SnakeIt(SnakeIt(s)) == SnakeIt(s)
  {
    SnakeItWithoutUpper(SnakeIt(s));
  }

  lemma SnakeItLegacyWithoutUpper(s: string)
    requires NoUpper(s)
    ensures SnakeItLegacy(s) == s
  {
    SubstitutedWithoutUpper(s, None, true);
  }

  /** The legacy version is idempotent as well. */
  lemma SnakeItLegacyIdempotent(s: string)
    ensures SnakeItLegacy(SnakeItLegacy(s)) == SnakeItLegacy(s)
  {
    SnakeItLegacyWithoutUpper(SnakeItLegacy(s));
  }

  /** No upper-case letter directly follows an underscore. */
  predicate NoUpperAfterUnderscore(s: string) {
    forall i :: 0 < i < |s| ==> s[i - 1] == '_' ==> !IsUpper(s[i])
  }

  lemma {:induction false} SubstitutedVersionsAgree(s: string, prev: Option<char>)
    requires NoUpperAfterUnderscore(s)
    requires prev == Some('_') && s != [] ==> !IsUpper(s[0])
    ensures Substituted(s, prev, false) == Substituted(s, prev, true)
  {
    if s != [] {
      SubstitutedVersionsAgree(s[1..], Some(s[0]));
    }
  }

  /** The two versions agree on every input in which no upper-case letter follows `_`. */
  lemma SnakeItVersionsAgree(s: string)
    requires NoUpperAfterUnderscore(s)
    ensures SnakeIt(s) == SnakeItLegacy(s)
  {
    SubstitutedVersionsAgree(s, None);
  }

  lemma {:induction false} SubstitutedAppend(a: string, b: string, prev: Option<char>, legacy: bool)
    requires a != []
    ensures Substituted(a + b, prev, legacy)
         == Substituted(a, prev, legacy) + Substituted(b, Some(a[|a| - 1]), legacy)
  {
    assert (a + b)[0] == a[0] && (a + b)[1..] == a[1..] + b;
    if |a| > 1 {
      SubstitutedAppend(a[1..], b, Some(a[0]), legacy);
    } else {
      assert a[1..] + b == b;
    }
  }

  /** One capitalised word: at most one `_`, in front of it. */
  lemma WordSubstituted(w: string, prev: Option<char>, legacy: bool)
    requires |w| > 0 && IsUpper(w[0]) && NoUpper(w[1..])
    ensures Substituted(w, prev, legacy)
         == if InsertsBefore(w[0], prev, legacy) then "_" + w else w
  {
    SubstitutedWithoutUpper(w[1..], Some(w[0]), legacy);
    assert w == [w[0]] + w[1..];
  }

  /** Where they differ: the legacy version doubles the underscore in "A_B". */
  lemma SnakeItVersionsDiffer()
    ensures SnakeItLegacy("A_B") == "a__b"
    ensures SnakeIt("A_B") == "a_b"
  {
    SubstitutedAppend("A", "_B", None, true);
    SubstitutedAppend("_", "B", Some('A'), true);
    SubstitutedAppend("A", "_B", None, false);
    SubstitutedAppend("_", "B", Some('A'), false);
    assert Lower("A__B") == "a__b";
    assert Lower("A_B") == "a_b";
  }

  lemma LowerAppend(a: string, b: string)
    ensures Lower(a + b) == Lower(a) + Lower(b)
  {
    assert forall i :: 0 <= i < |a + b| ==> Lower(a + b)[i] == (Lower(a) + Lower(b))[i];
  }

  /** A capitalised word without underscores: "Word", "P". */
  predicate Capitalised(w: string) {
    |w| > 0 && IsUpper(w[0]) && NoUpper(w[1..]) && '_' !in w
  }

  function Concat(ws: seq<string>): string {
    if ws == [] then [] else ws[0] + Concat(ws[1..])
  }

  /** The words lower-cased and joined by `_`. */
  function SnakeJoin(ws: seq<string>): string
    requires ws != []
  {
    if |ws| == 1 then Lower(ws[0]) else Lower(ws[0]) + "_" + SnakeJoin(ws[1..])
  }

  lemma {:induction false} SubstitutedCamelCase(ws: seq<string>, prev: Option<char>)
    requires ws != [] && forall i :: 0 <= i < |ws| ==> Capitalised(ws[i])
    requires prev.Some? ==> prev.value != '_'
    ensures Substituted(Concat(ws), prev, false)
         == (if prev.Some? then "_" + ws[0] else ws[0]) + SubstitutedTail(ws[1..])
  {
    var w := ws[0];
    WordSubstituted(w, prev, false);
    if |ws| > 1 {
      assert Concat(ws) == w + Concat(ws[1..]);
      SubstitutedAppend(w, Concat(ws[1..]), prev, false);
      assert w[|w| - 1] != '_';
      SubstitutedCamelCase(ws[1..], Some(w[|w| - 1]));
    } else {
      assert Concat(ws) == w + [];
      assert Concat(ws) == w;
    }
  }

  /** Every word with the `_` the substitution puts in front of it. */
  function SubstitutedTail(ws: seq<string>): string {
    if ws == [] then [] else "_" + ws[0] + SubstitutedTail(ws[1..])
  }

  lemma {:induction false} LowerSubstitutedTail(ws: seq<string>)
    ensures ws != [] ==> Lower(SubstitutedTail(ws)) == "_" + SnakeJoin(ws)
  {
    if ws != [] {
      var u, w, t := "_", ws[0], SubstitutedTail(ws[1..]);
      assert SubstitutedTail(ws) == u + w + t;
      LowerAppend(u + w, t);
      LowerAppend(u, w);
      assert Lower(u) == u;
      if |ws| == 1 {
        assert t == [];
        assert u + Lower(w) + [] == u + Lower(w);
      } else {
        LowerSubstitutedTail(ws[1..]);
        assert SnakeJoin(ws) == Lower(w) + u + SnakeJoin(ws[1..]);
      }
    }
  }

  lemma {:induction false} LowerCamelCase(ws: seq<string>)
    requires ws != []
    ensures Lower(ws[0] + SubstitutedTail(ws[1..])) == SnakeJoin(ws)
  {
    var w, t := ws[0], SubstitutedTail(ws[1..]);
    LowerAppend(w, t);
    if |ws| == 1 {
      assert t == [] && w + t == w;
    } else {
      LowerSubstitutedTail(ws[1..]);
      assert SnakeJoin(ws) == Lower(w) + "_" + SnakeJoin(ws[1..]);
    }
  }

  /**
   * A CamelCase identifier made of capitalised words becomes its words
   * lower-cased and joined by `_`.
   */
  lemma SnakeItCamelCase(ws: seq<string>)
    requires ws != [] && forall i :: 0 <= i < |ws| ==> Capitalised(ws[i])
    ensures SnakeIt(Concat(ws)) == SnakeJoin(ws)
  {
    SubstitutedCamelCase(ws, None);
    LowerCamelCase(ws);
  }

  /** tests/test_utils.py: the empty string and an already snake-cased name are unchanged. */
  lemma SnakeItUnchangedCases()
    ensures SnakeIt("") == ""
    ensures SnakeIt("already_snaked_unaffected") == "already_snaked_unaffected"
  {
    SnakeItWithoutUpper("");
    SnakeItWithoutUpper("already_snaked_unaffected");
  }

  /** tests/test_utils.py: one word, three words, and a trailing single capital. */
  lemma SnakeItCamelCases()
    ensures SnakeIt("Word") == "word"
    ensures SnakeIt("ThreeWordValue") == "three_word_value"
    ensures SnakeIt("EndsWithCaP") == "ends_with_ca_p"
  {
    SnakeItOneWord();
    SnakeItThreeWords();
    SnakeItEndsWithCapital();
  }

  /** A capitalised word with no other capitals is lower-cased. */
  lemma SnakeItCapitalisedWord(w: string)
    requires Capitalised(w)
    ensures SnakeIt(w) == Lower(w)
  {
    var ws := [w];
    SnakeItCamelCase(ws);
    assert Concat(ws) == w;
    assert SnakeJoin(ws) == Lower(w);
  }

  lemma SnakeItLegacyCapitalisedWord(w: string)
    requires Capitalised(w)
    ensures SnakeItLegacy(w) == Lower(w)
  {
    SnakeItCapitalisedWord(w);
    assert NoUpperAfterUnderscore(w) by {
      forall i | 0 <= i < |w| ensures w[i] != '_' {
        assert w[i] in w;
      }
    }
    SnakeItVersionsAgree(w);
  }

  lemma SnakeItOneWord()
    ensures SnakeIt("Word") == "word"
  {
    var ws := ["Word"];
    assert Capitalised(ws[0]);
    SnakeItCamelCase(ws);
    assert Concat(ws) == "Word";
  }

  /** The CamelCase examples cut into their words. */
  const ThreeWords: seq<string> := ["Three", "Word", "Value"]
  const EndsWithCapitalWords: seq<string> := ["Ends", "With", "Ca", "P"]

  lemma ThreeWordsCapitalised()
    ensures forall i :: 0 <= i < |ThreeWords| ==> Capitalised(ThreeWords[i])
  {
    assert Capitalised("Three") && Capitalised("Word") && Capitalised("Value");
  }

  lemma ThreeWordsJoined()
    ensures Concat(ThreeWords) == "ThreeWordValue"
    ensures SnakeJoin(ThreeWords) == "three_word_value"
  {
    assert Lower("Three") == "three" && Lower("Word") == "word" && Lower("Value") == "value";
  }

  lemma SnakeItThreeWords()
    ensures SnakeIt("ThreeWordValue") == "three_word_value"
  {
    ThreeWordsCapitalised();
    SnakeItCamelCase(ThreeWords);
    ThreeWordsJoined();
  }

  lemma EndsWithCapitalCapitalised()
    ensures forall i :: 0 <= i < |EndsWithCapitalWords| ==> Capitalised(EndsWithCapitalWords[i])
  {
    assert Capitalised("Ends") && Capitalised("With") && Capitalised("Ca") && Capitalised("P");
  }

  lemma EndsWithCapitalJoined()
    ensures Concat(EndsWithCapitalWords) == "EndsWithCaP"
    ensures SnakeJoin(EndsWithCapitalWords) == "ends_with_ca_p"
  {
    assert Lower("Ends") == "ends" && Lower("With") == "with" && Lower("Ca") == "ca" && Lower("P") == "p";
  }

  lemma SnakeItEndsWithCapital()
    ensures SnakeIt("EndsWithCaP") == "ends_with_ca_p"
  {
    EndsWithCapitalCapitalised();
    SnakeItCamelCase(EndsWithCapitalWords);
    EndsWithCapitalJoined();
  }

  /** tests/test_utils.py: a capital directly after `_` gains no second underscore. */
  lemma SnakeItCapitalisedSnaked()
    ensures SnakeIt("Capitalised_Snaked_Lowered") == "capitalised_snaked_lowered"
  {
    NothingInsertedAfterUnderscores();
    LowerCapitalisedSnaked();
  }

  lemma {:induction false} SubstitutedSnakeWords(ws: seq<string>, prev: Option<char>)
    requires forall i :: 0 <= i < |ws| ==> |ws[i]| > 0 && NoUpper(ws[i][1..])
    requires forall i :: 0 <= i < |ws| - 1 ==> ws[i][|ws[i]| - 1] == '_'
    requires prev == None || prev == Some('_')
    ensures Substituted(Concat(ws), prev, false) == Concat(ws)
  {
    if ws != [] {
      var w := ws[0];
      SubstitutedWithoutUpper(w[1..], Some(w[0]), false);
      assert w == [w[0]] + w[1..];
      assert Substituted(w, prev, false) == w;
      if |ws| > 1 {
        SubstitutedAppend(w, Concat(ws[1..]), prev, false);
        SubstitutedSnakeWords(ws[1..], Some('_'));
      } else {
        assert Concat(ws) == w + [] == w;
      }
    }
  }

  lemma NothingInsertedAfterUnderscores()
    ensures Substituted("Capitalised_Snaked_Lowered", None, false) == "Capitalised_Snaked_Lowered"
  {
    var ws := SnakedWords;
    SnakedWordsShape();
    SubstitutedSnakeWords(ws, None);
    SnakedWordsJoined();
  }

  /** The test string cut after each underscore. */
  const SnakedWords: seq<string> := ["Capitalised_", "Snaked_", "Lowered"]

  lemma SnakedWordsShape()
    ensures forall i :: 0 <= i < |SnakedWords| ==> |SnakedWords[i]| > 0 && NoUpper(SnakedWords[i][1..])
    ensures forall i :: 0 <= i < |SnakedWords| - 1 ==> SnakedWords[i][|SnakedWords[i]| - 1] == '_'
  {
    assert NoUpper("apitalised_") && NoUpper("naked_") && NoUpper("owered");
  }

  lemma SnakedWordsJoined()
    ensures Concat(SnakedWords) == "Capitalised_Snaked_Lowered"
  {
  }

  lemma LowerCapitalisedSnaked()
    ensures Lower("Capitalised_Snaked_Lowered") == "capitalised_snaked_lowered"
  {
    var a, b, c := "Capitalised_", "Snaked_", "Lowered";
    assert "Capitalised_Snaked_Lowered" == a + (b + c);
    LowerAppend(a, b + c);
    LowerAppend(b, c);
    SnakedWordsLowered();
  }

  lemma SnakedWordsLowered()
    ensures Lower("Capitalised_") == "capitalised_" && Lower("Snaked_") == "snaked_" && Lower("Lowered") == "lowered"
  {
  }
}
