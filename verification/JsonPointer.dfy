// JSON Pointers as core/profile_state.go reads and writes them: escaping of one
// segment, splitting of a pointer and the way back.
module JsonPointer {
  import opened Wrappers

  // strings.ReplaceAll with a one-character pattern.
  function ReplaceAll(s: string, c: char, with: string): string {
    if s == [] then []
    else (if s[0] == c then with else [s[0]]) + ReplaceAll(s[1..], c, with)
  }

  function EscapeSegment(segment: string): string {
    ReplaceAll(ReplaceAll(segment, '~', "~0"), '/', "~1")
  }

  function Prepend(prefix: string, text: Option<string>): Option<string> {
    match text
    case None => None
    case Some(rest) => Some(prefix + rest)
  }

  // Reading an escaped segment from the front; None for a dangling or unknown escape.
  function UnescapeSegment(raw: string): Option<string> {
    if raw == [] then Some([])
    else if raw[0] != '~' then Prepend([raw[0]], UnescapeSegment(raw[1..]))
    else if |raw| >= 2 && raw[1] == '0' then Prepend(['~'], UnescapeSegment(raw[2..]))
    else if |raw| >= 2 && raw[1] == '1' then Prepend(['/'], UnescapeSegment(raw[2..]))
    else None
  }

  lemma PrependStep(prefix: string, c: char, text: Option<string>)
    ensures Prepend(prefix, Prepend([c], text)) == Prepend(prefix + [c], text)
  {
    if text.Some? {
      assert prefix + ([c] + text.value) == prefix + [c] + text.value;
    }
  }

  lemma PrependNothing(text: Option<string>)
    ensures Prepend("", text) == text
  {
    if text.Some? {
      assert "" + text.value == text.value;
    }
  }

  // The loop of unescapeJSONPointer: a builder that grows while an index moves
  // over one or two characters.
  method Unescape(value: string) returns (r: Option<string>)
    ensures r == UnescapeSegment(value)
  {
    var result := "";
    var index := 0;
    PrependNothing(UnescapeSegment(value));
    assert value[0..] == value;
    while index < |value|
      invariant 0 <= index <= |value|
      invariant UnescapeSegment(value) == Prepend(result, UnescapeSegment(value[index..]))
    {
      ghost var rest := value[index..];
      if value[index] != '~' {
        assert rest[1..] == value[index + 1..];
        PrependStep(result, value[index], UnescapeSegment(value[index + 1..]));
        result := result + [value[index]];
        index := index + 1;
        continue;
      }
      if index + 1 >= |value| {
        return None;
      }
      assert rest[2..] == value[index + 2..];
      index := index + 1;
      if value[index] == '0' {
        PrependStep(result, '~', UnescapeSegment(value[index + 1..]));
        result := result + ['~'];
      } else if value[index] == '1' {
        PrependStep(result, '/', UnescapeSegment(value[index + 1..]));
        result := result + ['/'];
      } else {
        return None;
      }
      index := index + 1;
    }
    assert value[index..] == [];
    assert result + [] == result;
    r := Some(result);
  }

  lemma {:induction false} ReplaceAllSplit(a: string, b: string, c: char, with: string)
    ensures ReplaceAll(a + b, c, with) == ReplaceAll(a, c, with) + ReplaceAll(b, c, with)
  {
    if a == [] {
      assert a + b == b;
    } else {
      assert (a + b)[1..] == a[1..] + b;
      ReplaceAllSplit(a[1..], b, c, with);
    }
  }

  // Escaping works character by character.
  lemma EscapeStep(segment: string)
    requires segment != []
    ensures EscapeSegment(segment) ==
      (if segment[0] == '~' then "~0" else if segment[0] == '/' then "~1" else [segment[0]]) +
      EscapeSegment(segment[1..])
  {
    var head := if segment[0] == '~' then "~0" else [segment[0]];
    ReplaceAllSplit(head, ReplaceAll(segment[1..], '~', "~0"), '/', "~1");
    if segment[0] == '~' {
      assert ReplaceAll("~0", '/', "~1") == "~0" by {
        assert "~0"[1..] == "0";
        assert "0"[1..] == "";
      }
    } else {
      assert [segment[0]][1..] == "";
    }
  }

  lemma {:induction false} EscapeHasNoSlash(segment: string)
    ensures '/' !in EscapeSegment(segment)
  {
    if segment != [] {
      EscapeStep(segment);
      EscapeHasNoSlash(segment[1..]);
    }
  }

  // Section 4 of RFC 6901: decoding undoes encoding.
  lemma {:induction false} UnescapeEscape(segment: string)
    ensures UnescapeSegment(EscapeSegment(segment)) == Some(segment)
  {
    if segment != [] {
      EscapeStep(segment);
      UnescapeEscape(segment[1..]);
      var rest := EscapeSegment(segment[1..]);
      var raw := EscapeSegment(segment);
      if segment[0] == '~' || segment[0] == '/' {
        assert raw[2..] == rest;
      } else {
        assert raw[1..] == rest;
      }
      assert segment == [segment[0]] + segment[1..];
    }
  }

  // Encoding undoes decoding exactly for texts that can be one pointer segment.
  lemma {:induction false} EscapeUnescape(raw: string)
    requires UnescapeSegment(raw).Some?
    ensures EscapeSegment(UnescapeSegment(raw).value) == raw <==> '/' !in raw
  {
    var segment := UnescapeSegment(raw).value;
    EscapeHasNoSlash(segment);
    if '/' !in raw {
      EscapeUnescapeSegment(raw);
    }
  }

  lemma {:induction false} EscapeUnescapeSegment(raw: string)
    requires UnescapeSegment(raw).Some? && '/' !in raw
    ensures EscapeSegment(UnescapeSegment(raw).value) == raw
  {
    if raw != [] {
      var width := if raw[0] == '~' then 2 else 1;
      var segment := UnescapeSegment(raw).value;
      EscapeUnescapeSegment(raw[width..]);
      EscapeStep(segment);
      assert segment[1..] == UnescapeSegment(raw[width..]).value;
      assert raw == raw[..width] + raw[width..];
    }
  }

  // strings.Split(s, "/")
  function Split(s: string): (parts: seq<string>)
    ensures parts != []
  {
    if s == [] then [""]
    else
      var rest := Split(s[1..]);
      if s[0] == '/' then [""] + rest
      else [[s[0]] + rest[0]] + rest[1..]
  }

  lemma {:induction false} SplitAtSlash(a: string, b: string)
    requires '/' !in a
    ensures Split(a + "/" + b) == [a] + Split(b)
  {
    if a == [] {
      assert (a + "/" + b)[1..] == b;
    } else {
      assert (a + "/" + b)[1..] == a[1..] + "/" + b;
      SplitAtSlash(a[1..], b);
      assert [a[0]] + a[1..] == a;
    }
  }

  lemma {:induction false} SplitPlain(a: string)
    requires '/' !in a
    ensures Split(a) == [a]
  {
    if a != [] {
      SplitPlain(a[1..]);
      assert [a[0]] + a[1..] == a;
    }
  }

  // The pointer addressing a path of object keys.
  function Pointer(segments: seq<string>): string {
    if segments == [] then "" else "/" + EscapeSegment(segments[0]) + Pointer(segments[1..])
  }

  // The source builds a pointer by appending one segment to its parent's pointer.
  lemma {:induction false} PointerExtend(segments: seq<string>, key: string)
    ensures Pointer(segments + [key]) == Pointer(segments) + "/" + EscapeSegment(key)
  {
    hide EscapeSegment;
    var last := "/" + EscapeSegment(key);
    if segments == [] {
      assert segments + [key] == [key];
      assert [key][1..] == [];
      assert Pointer([key]) == last + "";
    } else {
      PointerExtend(segments[1..], key);
      assert (segments + [key])[1..] == segments[1..] + [key];
      var first := "/" + EscapeSegment(segments[0]);
      var middle := Pointer(segments[1..]);
      assert Pointer(segments) == first + middle;
      assert Pointer(segments + [key]) == first + Pointer(segments[1..] + [key]);
      assert Pointer(segments[1..] + [key]) == middle + last by {
        assert middle + "/" + EscapeSegment(key) == middle + last;
      }
      assert first + (middle + last) == first + middle + "/" + EscapeSegment(key);
    }
  }

  function UnescapeAll(raw: seq<string>): Option<seq<string>> {
    if raw == [] then Some([])
    else
      match (UnescapeSegment(raw[0]), UnescapeAll(raw[1..]))
      case (Some(segment), Some(rest)) => Some([segment] + rest)
      case _ => None
  }

  // The keys a pointer names: None when it is malformed.
  function Segments(pointer: string): Option<seq<string>> {
    if pointer == "" then Some([])
    else if pointer[0] != '/' then None
    else UnescapeAll(Split(pointer[1..]))
  }

  lemma UnescapeAllCons(raw: string, rest: seq<string>)
    requires UnescapeSegment(raw).Some? && UnescapeAll(rest).Some?
    ensures UnescapeAll([raw] + rest) == Some([UnescapeSegment(raw).value] + UnescapeAll(rest).value)
  {
    assert ([raw] + rest)[1..] == rest;
  }

  lemma SplitPointerStep(escaped: string, tail: string)
    requires '/' !in escaped
    requires tail != "" ==> tail[0] == '/'
    ensures ("/" + escaped + tail)[1..] == escaped + tail
    ensures Split(escaped + tail) == [escaped] + (if tail == "" then [] else Split(tail[1..]))
  {
    if tail == "" {
      assert escaped + tail == escaped;
      SplitPlain(escaped);
    } else {
      assert escaped + tail == escaped + "/" + tail[1..];
      SplitAtSlash(escaped, tail[1..]);
    }
  }

  lemma {:induction false} SplitPointer(segments: seq<string>)
    requires segments != []
    ensures Pointer(segments) != "" && Pointer(segments)[0] == '/'
    ensures UnescapeAll(Split(Pointer(segments)[1..])) == Some(segments)
  {
    var escaped := EscapeSegment(segments[0]);
    var tail := segments[1..];
    EscapeHasNoSlash(segments[0]);
    UnescapeEscape(segments[0]);
    assert segments == [segments[0]] + tail;
    if tail != [] {
      SplitPointer(tail);
    }
    SplitPointerStep(escaped, Pointer(tail));
    UnescapeAllCons(escaped, if tail == [] then [] else Split(Pointer(tail)[1..]));
  }

  // Splitting and unescaping a built pointer recovers its keys.
  lemma SegmentsOfPointer(segments: seq<string>)
    ensures Segments(Pointer(segments)) == Some(segments)
  {
    if segments != [] {
      SplitPointer(segments);
    }
  }

  // Distinct key paths have distinct pointers.
  lemma PointerInjective(a: seq<string>, b: seq<string>)
    ensures Pointer(a) == Pointer(b) <==> a == b
  {
    SegmentsOfPointer(a);
    SegmentsOfPointer(b);
  }
}
