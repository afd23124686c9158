/** Property-name selection: a blank property string stands for the default
    pair of custom property names, otherwise the string is split on ',' and
    the second part, when there is one, is stripped of white space. */
module Names {

  /** Python's `str.split(sep)` with an explicit separator: the pieces between
      successive separators, so there is always at least one piece. */
  function Split(s: string, sep: char): (parts: seq<string>)
    ensures |parts| >= 1
    decreases |s|
  {
    if s == [] then [""]
    else
      var rest := Split(s[1..], sep);
      if s[0] == sep then [""] + rest else [[s[0]] + rest[0]] + rest[1..]
  }

  /** Python's `sep.join(parts)`. */
  function Join(parts: seq<string>, sep: char): string
    requires |parts| >= 1
  {
    if |parts| == 1 then parts[0] else parts[0] + [sep] + Join(parts[1..], sep)
  }

  /** Splitting loses nothing: joining the pieces gives the string back. */
  lemma {:induction false} SplitJoin(s: string, sep: char)
    ensures Join(Split(s, sep), sep) == s
    decreases |s|
  {
    if s != [] {
      var rest := Split(s[1..], sep);
      SplitJoin(s[1..], sep);
      assert Join(Split(s, sep), sep) == [s[0]] + Join(rest, sep) by {
        if s[0] != sep {
          JoinCons(s[0], rest[0], rest[1..], sep);
          assert [rest[0]] + rest[1..] == rest;
        } else {
          assert ([""] + rest)[1..] == rest;
        }
      }
      assert s == [s[0]] + s[1..];
    }
  }

  /** A character in front of the first piece comes out in front of the
      join. */
  lemma JoinCons(c: char, piece: string, pieces: seq<string>, sep: char)
    ensures Join([[c] + piece] + pieces, sep) == [c] + Join([piece] + pieces, sep)
  {
    if pieces != [] {
      assert ([[c] + piece] + pieces)[1..] == pieces;
      assert ([piece] + pieces)[1..] == pieces;
    }
  }

  /** No piece of a split contains the separator. */
  lemma {:induction false} SplitPieces(s: string, sep: char)
    ensures forall i :: 0 <= i < |Split(s, sep)| ==> sep !in Split(s, sep)[i]
    decreases |s|
  {
    if s != [] {
      SplitPieces(s[1..], sep);
      var rest := Split(s[1..], sep);
      var parts := Split(s, sep);
      if s[0] != sep {
        forall i | 0 <= i < |parts|
          ensures sep !in parts[i]
        {
          if i == 0 {
            assert parts[0] == [s[0]] + rest[0];
          } else {
            assert parts[i] == rest[i];
          }
        }
      } else {
        forall i | 0 <= i < |parts|
          ensures sep !in parts[i]
        {
          if i > 0 {
            assert parts[i] == rest[i - 1];
          }
        }
      }
    }
  }

  /** And conversely: pieces free of the separator are recovered from their
      join, so Split and Join are inverse bijections. */
  lemma {:induction false} JoinSplit(parts: seq<string>, sep: char)
    requires |parts| >= 1
    requires forall i :: 0 <= i < |parts| ==> sep !in parts[i]
    ensures Split(Join(parts, sep), sep) == parts
    decreases |parts|, |parts[0]|
  {
    var head := parts[0];
    if head == [] {
      if |parts| > 1 {
        JoinSplit(parts[1..], sep);
        var s := Join(parts, sep);
        assert s == [sep] + Join(parts[1..], sep);
        assert s[1..] == Join(parts[1..], sep);
      }
    } else {
      var tail := [head[1..]] + parts[1..];
      assert forall i :: 0 <= i < |tail| ==> sep !in tail[i] by {
        forall i | 0 <= i < |tail| ensures sep !in tail[i] {
          if i == 0 {
            assert forall c :: c in head[1..] ==> c in head;
          } else {
            assert tail[i] == parts[i];
          }
        }
      }
      JoinSplit(tail, sep);
      var s := Join(parts, sep);
      assert tail[1..] == parts[1..];
      assert s == [head[0]] + Join(tail, sep) by {
        assert head == [head[0]] + head[1..];
      }
      assert s[0] == head[0] && s[0] != sep;
      assert s[1..] == Join(tail, sep);
      assert [[head[0]] + tail[0]] + tail[1..] == parts by {
        assert head == [head[0]] + head[1..];
      }
    }
  }

  /** A string splits into more than one piece exactly when it contains the
      separator. */
  lemma {:induction false} SplitMany(s: string, sep: char)
    ensures |Split(s, sep)| > 1 <==> sep in s
    decreases |s|
  {
    if s != [] {
      SplitMany(s[1..], sep);
      assert s == [s[0]] + s[1..];
    }
  }

  /** The characters Python's `str.strip()` removes, restricted to ASCII. */
  predicate IsSpace(c: char)
  {
    c == ' ' || 9 <= c as int <= 13 || 28 <= c as int <= 31
  }

  /** The string without its leading white space. */
  function TrimStart(s: string): string
    decreases |s|
  {
    if s != [] && IsSpace(s[0]) then TrimStart(s[1..]) else s
  }

  /** The string without its trailing white space. */
  function TrimEnd(s: string): string
    decreases |s|
  {
    if s != [] && IsSpace(s[|s| - 1]) then TrimEnd(s[..|s| - 1]) else s
  }

  /** TrimStart drops a prefix of white space and stops at the first other
      character. */
  lemma {:induction false} TrimStartMeaning(s: string)
    ensures |TrimStart(s)| <= |s| && TrimStart(s) == s[|s| - |TrimStart(s)|..]
    ensures forall i :: 0 <= i < |s| - |TrimStart(s)| ==> IsSpace(s[i])
    ensures TrimStart(s) == [] || !IsSpace(TrimStart(s)[0])
    decreases |s|
  {
    if s != [] && IsSpace(s[0]) {
      TrimStartMeaning(s[1..]);
    }
  }

  /** TrimEnd drops a suffix of white space and stops at the last other
      character. */
  lemma {:induction false} TrimEndMeaning(s: string)
    ensures |TrimEnd(s)| <= |s| && TrimEnd(s) == s[..|TrimEnd(s)|]
    ensures forall i :: |TrimEnd(s)| <= i < |s| ==> IsSpace(s[i])
    ensures TrimEnd(s) == [] || !IsSpace(TrimEnd(s)[|TrimEnd(s)| - 1])
    decreases |s|
  {
    if s != [] && IsSpace(s[|s| - 1]) {
      TrimEndMeaning(s[..|s| - 1]);
    }
  }

  /** Python's `str.strip()`. */
  function Strip(s: string): string
  {
    TrimEnd(TrimStart(s))
  }

  /** Strip leaves no white space at either end. */
  lemma StripEnds(s: string)
    ensures Strip(s) == [] || (!IsSpace(Strip(s)[0]) && !IsSpace(Strip(s)[|Strip(s)| - 1]))
  {
    var t := TrimStart(s);
    var r := TrimEnd(t);
    TrimStartMeaning(s);
    TrimEndMeaning(t);
    if r != [] {
      assert r[0] == t[0];
    }
  }

  /** Strip keeps a contiguous middle of the string and removes only white
      space on either side. */
  lemma StripMeaning(s: string)
    ensures var i := |s| - |TrimStart(s)|;
      var j := i + |Strip(s)|;
      && 0 <= i <= j <= |s|
      && Strip(s) == s[i..j]
      && (forall k :: 0 <= k < i ==> IsSpace(s[k]))
      && (forall k :: j <= k < |s| ==> IsSpace(s[k]))
  {
    var t := TrimStart(s);
    var r := TrimEnd(t);
    TrimStartMeaning(s);
    TrimEndMeaning(t);
    var i := |s| - |t|;
    var j := i + |r|;
    assert r == s[i..j] by {
      assert t == s[i..];
    }
    assert forall k :: j <= k < |s| ==> IsSpace(s[k]) by {
      forall k | j <= k < |s| ensures IsSpace(s[k]) {
        assert s[k] == t[k - i];
      }
    }
  }

  /** Stripping twice changes nothing more. */
  lemma StripIdempotent(s: string)
    ensures Strip(Strip(s)) == Strip(s)
  {
    var r := Strip(s);
    StripEnds(s);
    assert TrimStart(r) == r;
  }

  /** The names of the scalar and, when present, the vector property for one
      channel: `Driver_<suffix>` and `Wobble_<suffix>` for a blank property
      string, otherwise the string's comma-separated parts. */
  function TargetProps(property: string, suffix: string): seq<string>
  {
    if property == "" then ["Driver_" + suffix, "Wobble_" + suffix] else Split(property, ',')
  }

  /** There is always a scalar property name; a vector property is named
      exactly when the property string is blank or holds a comma; and a
      non-blank property string is the comma-join of the names. */
  lemma TargetPropsMeaning(property: string, suffix: string)
    ensures |TargetProps(property, suffix)| >= 1
    ensures |TargetProps(property, suffix)| > 1 <==> property == "" || ',' in property
    ensures property != "" ==> Join(TargetProps(property, suffix), ',') == property
    ensures property == "" ==> TargetProps(property, suffix) == ["Driver_" + suffix, "Wobble_" + suffix]
    ensures property != "" && ',' !in property ==> TargetProps(property, suffix) == [property]
  {
    if property != "" {
      SplitMany(property, ',');
      SplitJoin(property, ',');
    }
  }

  /** The default vector name survives the strip applied to the second name:
      `Wobble_` starts with a letter, and the suffix ends in a non-space. */
  lemma DefaultVectorName(suffix: string)
    requires suffix != [] && !IsSpace(suffix[|suffix| - 1])
    ensures Strip(TargetProps("", suffix)[1]) == "Wobble_" + suffix
  {
    var name := "Wobble_" + suffix;
    assert TrimStart(name) == name by {
      assert name[0] == 'W';
    }
    assert TrimEnd(name) == name by {
      assert name[|name| - 1] == suffix[|suffix| - 1];
    }
  }

  /** The three suffixes the operator uses give `Wobble_L`, `Wobble_R` and
      `Wobble_S` as default vector names. */
  lemma DefaultVectorNames()
    ensures Strip(TargetProps("", "L")[1]) == "Wobble_L"
    ensures Strip(TargetProps("", "R")[1]) == "Wobble_R"
    ensures Strip(TargetProps("", "S")[1]) == "Wobble_S"
  {
    DefaultVectorName("L");
    DefaultVectorName("R");
    DefaultVectorName("S");
  }
}
