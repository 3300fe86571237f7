/** `getFileExtensionFromMediaType`, which both upload handlers define
    identically: split the media type on "/" and take the second part when
    there are exactly two, else "bin". The split follows `String.split` with a
    one-character separator. */
module MediaType {

  /** The number of occurrences of `c` in `s`. */
  function Count(s: string, c: char): nat
  {
    if s == [] then 0 else (if s[0] == c then 1 else 0) + Count(s[1..], c)
  }

  /** `s.split(sep)`: the pieces between separators, so one more piece than
      there are separators, none of them holding the separator. */
  function Split(s: string, sep: char): (parts: seq<string>)
    ensures |parts| == Count(s, sep) + 1
    ensures forall i :: 0 <= i < |parts| ==> sep !in parts[i]
    decreases |s|
  {
    if s == [] then [""]
    else
      var rest := Split(s[1..], sep);
      if s[0] == sep then [""] + rest
      else [[s[0]] + rest[0]] + rest[1..]
  }

  /** `parts.join(sep)`: the inverse of `Split`. */
  function Join(parts: seq<string>, sep: char): string
  {
    if parts == [] then ""
    else if |parts| == 1 then parts[0]
    else parts[0] + [sep] + Join(parts[1..], sep)
  }

  lemma {:induction false} JoinPrepend(c: char, parts: seq<string>, sep: char)
    requires parts != []
    ensures Join([[c] + parts[0]] + parts[1..], sep) == [c] + Join(parts, sep)
  {
    var q := [[c] + parts[0]] + parts[1..];
    assert q[1..] == parts[1..];
    if |parts| > 1 {
      assert [c] + parts[0] + [sep] + Join(parts[1..], sep) == [c] + (parts[0] + [sep] + Join(parts[1..], sep));
    }
  }

  /** Splitting and joining again on the same separator gives the string back. */
  lemma {:induction false} JoinSplit(s: string, sep: char)
    ensures Join(Split(s, sep), sep) == s
    decreases |s|
  {
    if s != [] {
      var rest := Split(s[1..], sep);
      JoinSplit(s[1..], sep);
      if s[0] == sep {
        assert ([""] + rest)[1..] == rest;
        assert s == [sep] + s[1..];
      } else {
        JoinPrepend(s[0], rest, sep);
        assert s == [s[0]] + s[1..];
      }
    }
  }

  lemma {:induction false} SplitWithoutSeparator(s: string, sep: char)
    requires sep !in s
    ensures Split(s, sep) == [s]
    decreases |s|
  {
    if s != [] {
      assert sep !in s[1..] by {
        forall i | 0 <= i < |s[1..]| ensures s[1..][i] != sep { assert s[1..][i] == s[i + 1]; }
      }
      SplitWithoutSeparator(s[1..], sep);
      assert [s[0]] + s[1..] == s;
    }
  }

  /** A string with one separator between two separator-free pieces splits
      into exactly those two pieces. */
  lemma {:induction false} SplitPair(a: string, b: string, sep: char)
    requires sep !in a && sep !in b
    ensures Split(a + [sep] + b, sep) == [a, b]
    decreases |a|
  {
    var s := a + [sep] + b;
    if a == [] {
      assert s[1..] == b;
      SplitWithoutSeparator(b, sep);
    } else {
      assert s[1..] == a[1..] + [sep] + b;
      assert sep !in a[1..] by {
        forall i | 0 <= i < |a[1..]| ensures a[1..][i] != sep { assert a[1..][i] == a[i + 1]; }
      }
      SplitPair(a[1..], b, sep);
      assert [a[0]] + a[1..] == a;
    }
  }

  /** `getFileExtensionFromMediaType`. With exactly one "/" in the media type
      the result is the separator-free text after it; otherwise "bin". */
  function Extension(mediaType: string): (ext: string)
    ensures Count(mediaType, '/') != 1 ==> ext == "bin"
    ensures Count(mediaType, '/') == 1 ==>
      && '/' !in ext
      && |ext| < |mediaType|
      && mediaType == mediaType[..|mediaType| - |ext| - 1] + "/" + ext
  {
    var parts := Split(mediaType, '/');
    JoinSplit(mediaType, '/');
    if |parts| == 2 then
      assert parts[1..] == [parts[1]];
      parts[1]
    else "bin"
  }

  /** "type/subtype" with no further "/" yields the subtype. */
  lemma ExtensionOfTypeAndSubtype(kind: string, subtype: string)
    requires '/' !in kind && '/' !in subtype
    ensures Extension(kind + "/" + subtype) == subtype
  {
    SplitPair(kind, subtype, '/');
  }

  /** The media types the upload handlers accept. */
  lemma ExtensionOfPng()
    ensures Extension("image/png") == "png"
  {
    assert '/' !in "image" && '/' !in "png";
    assert "image" + "/" + "png" == "image/png";
    ExtensionOfTypeAndSubtype("image", "png");
  }

  lemma ExtensionOfJpeg()
    ensures Extension("image/jpeg") == "jpeg"
  {
    assert '/' !in "image" && '/' !in "jpeg";
    assert "image" + "/" + "jpeg" == "image/jpeg";
    ExtensionOfTypeAndSubtype("image", "jpeg");
  }

  lemma ExtensionOfMp4()
    ensures Extension("video/mp4") == "mp4"
  {
    assert '/' !in "video" && '/' !in "mp4";
    assert "video" + "/" + "mp4" == "video/mp4";
    ExtensionOfTypeAndSubtype("video", "mp4");
  }

  /** No "/" at all, or more than one, falls back to "bin". */
  lemma ExtensionFallback()
    ensures Extension("abc") == "bin"
    ensures Extension("a/b/c") == "bin"
  {
    assert "a/b/c"[1..] == "/b/c" && "/b/c"[1..] == "b/c";
    assert "b/c"[1..] == "/c" && "/c"[1..] == "c";
    assert Count("a/b/c", '/') == 2;
  }
}
