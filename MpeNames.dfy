/** MPEData::getPrettyName: strips "MPE" from a gesture id and splits the
    rest into words at lower-to-upper case boundaries. */
module MpeNames {

  const Mpe := "MPE"

  /** CharacterFunctions::isUpperCase, restricted to ASCII. */
  predicate IsUpperCase(c: char)
  {
    'A' <= c <= 'Z'
  }

  /** juce::String::replace(s, "MPE", ""): find the first "MPE" at or after the
      current position, delete it, and go on searching at the deletion point. */
  function RemoveMpe(s: string): (r: string)
    ensures |r| <= |s|
  {
    if |s| < 3 then s
    else if s[..3] == Mpe then RemoveMpe(s[3..])
    else [s[0]] + RemoveMpe(s[1..])
  }

  predicate ContainsMpeAt(s: string, i: int)
  {
    0 <= i && i + 3 <= |s| && s[i..i + 3] == Mpe
  }

  /** A string without "MPE" comes out of the replace unchanged. */
  lemma {:induction false} RemoveMpeWithout(s: string)
    requires forall i :: 0 <= i ==> !ContainsMpeAt(s, i)
    ensures RemoveMpe(s) == s
  {
    if |s| >= 3 {
      assert !ContainsMpeAt(s, 0);
      assert s[0..3] == s[..3];
      forall i | 0 <= i
        ensures !ContainsMpeAt(s[1..], i)
      {
        assert !ContainsMpeAt(s, i + 1);
        if i + 3 <= |s[1..]| {
          assert s[1..][i..i + 3] == s[i + 1..i + 4];
        }
      }
      RemoveMpeWithout(s[1..]);
    }
  }

  /** The replace only deletes whole copies of "MPE". */
  lemma {:induction false} RemoveMpeDeletesTriples(s: string)
    ensures (|s| - |RemoveMpe(s)|) % 3 == 0
  {
    if |s| >= 3 {
      if s[..3] == Mpe {
        RemoveMpeDeletesTriples(s[3..]);
      } else {
        RemoveMpeDeletesTriples(s[1..]);
      }
    }
  }

  /** The replace does not rescan text in front of a deletion, so a copy of
      "MPE" can be left over where two halves meet. */
  lemma RemoveMpeLeavesJoinedCopy()
    ensures RemoveMpe("MMPEPE") == "MPE"
  {
    assert "MMPEPE"[..3] == "MMP";
    assert "MMPEPE"[1..] == "MPEPE";
    assert "MPEPE"[..3] == Mpe;
    assert "MPEPE"[3..] == "PE";
  }

  /** A space goes in front of character i of n exactly when it is uppercase and
      follows a character that is not. */
  predicate StartsWord(n: string, i: int)
    requires 0 <= i < |n|
  {
    IsUpperCase(n[i]) && i > 0 && !IsUpperCase(n[i - 1])
  }

  /** The pretty name, built character by character as the loop does. */
  function Pretty(n: string): string
  {
    if n == [] then []
    else
      var init := n[..|n| - 1];
      Pretty(init) + (if StartsWord(n, |n| - 1) then " " else "") + [n[|n| - 1]]
  }

  /** An independent reading, from the front: each character, then a space if
      the next one starts a word. */
  function Words(n: string): string
  {
    if |n| <= 1 then n
    else [n[0]] + (if !IsUpperCase(n[0]) && IsUpperCase(n[1]) then " " else "") + Words(n[1..])
  }

  /** Words starts with the first character. */
  lemma {:induction false} WordsHead(n: string)
    requires n != []
    ensures Words(n) != [] && Words(n)[0] == n[0]
  {
  }

  /** Appending one character at the back of the input extends Words as the
      loop extends the pretty name. */
  lemma {:induction false} WordsSnoc(n: string, c: char)
    requires n != []
    ensures Words(n + [c]) ==
      Words(n) + (if IsUpperCase(c) && !IsUpperCase(n[|n| - 1]) then " " else "") + [c]
  {
    if |n| == 1 {
      assert (n + [c])[1..] == [c];
    } else {
      assert (n + [c])[1..] == n[1..] + [c];
      WordsSnoc(n[1..], c);
    }
  }

  /** The character loop and the front-to-back reading agree. */
  lemma {:induction false} PrettyIsWords(n: string)
    ensures Pretty(n) == Words(n)
  {
    if |n| > 1 {
      var init := n[..|n| - 1];
      PrettyIsWords(init);
      assert init + [n[|n| - 1]] == n;
      WordsSnoc(init, n[|n| - 1]);
    } else if |n| == 1 {
      assert n[..0] == [];
    }
  }

  function RemoveSpaces(s: string): string
  {
    if s == [] then [] else (if s[0] == ' ' then [] else [s[0]]) + RemoveSpaces(s[1..])
  }

  lemma {:induction false} RemoveSpacesAppend(a: string, b: string)
    ensures RemoveSpaces(a + b) == RemoveSpaces(a) + RemoveSpaces(b)
  {
    if a != [] {
      assert (a + b)[1..] == a[1..] + b;
      RemoveSpacesAppend(a[1..], b);
    } else {
      assert a + b == b;
    }
  }

  /** Prettifying only inserts spaces: without spaces it is the input without spaces. */
  lemma {:induction false} PrettyOnlyAddsSpaces(n: string)
    ensures RemoveSpaces(Pretty(n)) == RemoveSpaces(n)
  {
    if n != [] {
      var init := n[..|n| - 1];
      var sep: string := if StartsWord(n, |n| - 1) then " " else "";
      PrettyOnlyAddsSpaces(init);
      RemoveSpacesAppend(Pretty(init) + sep, [n[|n| - 1]]);
      RemoveSpacesAppend(Pretty(init), sep);
      RemoveSpacesAppend(init, [n[|n| - 1]]);
      assert init + [n[|n| - 1]] == n;
      assert RemoveSpaces(sep) == [];
    }
  }

  /** The number of word starts in n. */
  function CountWordStarts(n: string): nat
  {
    if n == [] then 0 else CountWordStarts(n[..|n| - 1]) + (if StartsWord(n, |n| - 1) then 1 else 0)
  }

  /** Lengths: one extra character per word start. */
  lemma {:induction false} PrettyLength(n: string)
    ensures |Pretty(n)| == |n| + CountWordStarts(n)
  {
    if n != [] {
      PrettyLength(n[..|n| - 1]);
    }
  }

  /** No leading space: the pretty name begins with the first character. */
  lemma PrettyFirst(n: string)
    requires n != []
    ensures Pretty(n) != [] && Pretty(n)[0] == n[0]
  {
    PrettyIsWords(n);
    WordsHead(n);
  }

  /** In the pretty name, an uppercase character is preceded by another
      uppercase character or by a space. */
  lemma {:induction false} PrettySeparatesWords(n: string)
    ensures forall i :: 0 < i < |Pretty(n)| && IsUpperCase(Pretty(n)[i]) && !IsUpperCase(Pretty(n)[i - 1]) ==>
      Pretty(n)[i - 1] == ' '
  {
    if n != [] {
      var init := n[..|n| - 1];
      var c := n[|n| - 1];
      var sep: string := if StartsWord(n, |n| - 1) then " " else "";
      PrettySeparatesWords(init);
      var p := Pretty(n);
      assert p == Pretty(init) + sep + [c];
      if init != [] {
        PrettyLast(init);
      }
      forall i | 0 < i < |p| && IsUpperCase(p[i]) && !IsUpperCase(p[i - 1])
        ensures p[i - 1] == ' '
      {
        if i < |Pretty(init)| {
          assert p[i] == Pretty(init)[i] && p[i - 1] == Pretty(init)[i - 1];
        }
      }
    }
  }

  /** The pretty name ends with the last character. */
  lemma PrettyLast(n: string)
    requires n != []
    ensures Pretty(n) != [] && Pretty(n)[|Pretty(n)| - 1] == n[|n| - 1]
  {
  }

  lemma RemoveMpeExample()
    ensures RemoveMpe("MPEGlide") == "Glide"
  {
    assert "MPEGlide"[..3] == Mpe;
    assert "MPEGlide"[3..] == "Glide";
    var n := "Glide";
    forall i | 0 <= i
      ensures !ContainsMpeAt(n, i)
    {
      if i + 3 <= |n| {
        assert n[i..i + 3][0] == n[i];
        assert n[i] != 'M';
      }
    }
    RemoveMpeWithout(n);
  }

  /** One step of Words from the front. */
  lemma WordsStep(rest: string, c: char, n: string)
    requires rest != [] && n == [c] + rest
    ensures Words(n) == [c] + (if !IsUpperCase(c) && IsUpperCase(rest[0]) then " " else "") + Words(rest)
  {
    assert n[1..] == rest;
  }

  lemma WordsExample()
    ensures Words("Glide") == "Glide"
  {
    WordsStep("e", 'd', "de");
    WordsStep("de", 'i', "ide");
    WordsStep("ide", 'l', "lide");
    WordsStep("lide", 'G', "Glide");
  }

  /** The pretty name of the MPE glide gesture. */
  lemma PrettyNameExample()
    ensures Pretty(RemoveMpe("MPEGlide")) == "Glide"
  {
    RemoveMpeExample();
    WordsExample();
    PrettyIsWords("Glide");
  }

  /** getPrettyName: the loop over the characters of id.replace("MPE", ""). */
  method GetPrettyName(id: string) returns (pretty: string)
    ensures pretty == Pretty(RemoveMpe(id))
    ensures pretty == Words(RemoveMpe(id))
  {
    var n := RemoveMpe(id);
    pretty := "";
    var lastWasUppercase := true;
    var i := 0;
    while i < |n|
      invariant 0 <= i <= |n|
      invariant pretty == Pretty(n[..i])
      invariant lastWasUppercase == (i == 0 || IsUpperCase(n[i - 1]))
    {
      assert n[..i + 1][..i] == n[..i];
      if IsUpperCase(n[i]) && !lastWasUppercase {
        pretty := pretty + " ";
      }
      lastWasUppercase := IsUpperCase(n[i]);
      pretty := pretty + [n[i]];
      i := i + 1;
    }
    assert n[..i] == n;
    PrettyIsWords(n);
  }
}
