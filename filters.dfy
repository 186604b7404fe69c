/** The `f` filter parameter of the images and videos searches
    (async_ddgs.go): one `name:value` entry per non-empty argument, in a fixed
    order, each followed by a comma except the images `license` entry. */
module Filters {

  /** One argument of a filter string: the entry prefix (its name and a
      colon), the argument, and whether the entry is comma-terminated. */
  datatype Part = Part(prefix: string, value: string, comma: bool)

  /** What one argument contributes: nothing when it is empty. */
  function Piece(p: Part): (r: string)
    ensures r == "" <==> p.value == ""
  {
    if |p.value| > 0 then p.prefix + p.value + (if p.comma then "," else "") else ""
  }

  /** The filter string of the arguments, in order. */
  function FilterString(parts: seq<Part>): string
    decreases |parts|
  {
    if parts == [] then "" else FilterString(parts[..|parts| - 1]) + Piece(parts[|parts| - 1])
  }

  /** The `name:value` entries of the non-empty arguments, in order. */
  function Entries(parts: seq<Part>): (r: seq<string>)
    ensures |r| <= |parts|
    decreases |parts|
  {
    if parts == [] then []
    else
      var p := parts[|parts| - 1];
      Entries(parts[..|parts| - 1]) + (if |p.value| > 0 then [p.prefix + p.value] else [])
  }

  /** The comma-terminated images arguments: time, size, color, type and
      layout. */
  function ImagesTerminated(timelimit: string, size: string, color: string, typeImage: string, layout: string): seq<Part> {
    [Part("time:", timelimit, true), Part("size:", size, true), Part("color:", color, true),
     Part("type:", typeImage, true), Part("layout:", layout, true)]
  }

  /** The images arguments: the comma-terminated ones, then license, which
      is not. */
  function ImagesParts(timelimit: string, size: string, color: string, typeImage: string, layout: string, license: string): seq<Part> {
    ImagesTerminated(timelimit, size, color, typeImage, layout) + [Part("license:", license, false)]
  }

  /** The videos arguments, all comma-terminated. */
  function VideosParts(timelimit: string, resolution: string, duration: string, license: string): seq<Part> {
    [Part("publishedAfter:", timelimit, true), Part("videoDefinition:", resolution, true),
     Part("videoDuration:", duration, true), Part("videoLicense:", license, true)]
  }

  /** One more argument appends its piece. */
  lemma FilterStringSnoc(parts: seq<Part>, p: Part)
    ensures FilterString(parts + [p]) == FilterString(parts) + Piece(p)
  {
    assert (parts + [p])[..|parts|] == parts;
  }

  /** The filter string of the first k+1 arguments extends that of the
      first k by argument k's piece. */
  lemma FilterStringPrefix(parts: seq<Part>, k: nat)
    requires k < |parts|
    ensures FilterString(parts[..k + 1]) == FilterString(parts[..k]) + Piece(parts[k])
  {
    assert parts[..k + 1][..k] == parts[..k];
  }

  /** One more argument appends its entry, if it has one. */
  lemma EntriesSnoc(parts: seq<Part>, p: Part)
    ensures Entries(parts + [p]) == Entries(parts) + (if |p.value| > 0 then [p.prefix + p.value] else [])
  {
    assert (parts + [p])[..|parts|] == parts;
  }

  /** One `if len(value) > 0 { f += prefix + value [+ ","] }` step. */
  method AppendPiece(f: string, prefix: string, value: string, comma: bool) returns (f': string)
    ensures f' == f + Piece(Part(prefix, value, comma))
    ensures |value| > 0 ==> |f'| == |f| + |prefix| + |value| + (if comma then 1 else 0)
    ensures |value| == 0 ==> f' == f
  {
    f' := f;
    if |value| > 0 {
      if comma {
        f' := f' + (prefix + value + ",");
      } else {
        f' := f' + (prefix + value);
      }
    }
  }

  /** The images filter string, piece by piece. */
  lemma ImagesPieces(timelimit: string, size: string, color: string, typeImage: string, layout: string, license: string)
    ensures FilterString(ImagesParts(timelimit, size, color, typeImage, layout, license))
      == "" + Piece(Part("time:", timelimit, true)) + Piece(Part("size:", size, true)) + Piece(Part("color:", color, true)) + Piece(Part("type:", typeImage, true)) + Piece(Part("layout:", layout, true)) + Piece(Part("license:", license, false))
  {
    var parts := ImagesParts(timelimit, size, color, typeImage, layout, license);
    assert parts[..0] == [];
    FilterStringPrefix(parts, 0);
    FilterStringPrefix(parts, 1);
    FilterStringPrefix(parts, 2);
    FilterStringPrefix(parts, 3);
    FilterStringPrefix(parts, 4);
    FilterStringPrefix(parts, 5);
    assert parts[..6] == parts;
  }

  /** The images filter, built by appending to `f` argument by argument. */
  method ImagesFilter(timelimit: string, size: string, color: string, typeImage: string, layout: string, license: string)
    returns (f: string)
    ensures f == FilterString(ImagesParts(timelimit, size, color, typeImage, layout, license))
  {
    f := "";
    f := AppendPiece(f, "time:", timelimit, true);
    f := AppendPiece(f, "size:", size, true);
    f := AppendPiece(f, "color:", color, true);
    f := AppendPiece(f, "type:", typeImage, true);
    f := AppendPiece(f, "layout:", layout, true);
    f := AppendPiece(f, "license:", license, false);
    ImagesPieces(timelimit, size, color, typeImage, layout, license);
  }

  /** The videos filter string, piece by piece. */
  lemma VideosPieces(timelimit: string, resolution: string, duration: string, license: string)
    ensures FilterString(VideosParts(timelimit, resolution, duration, license))
      == "" + Piece(Part("publishedAfter:", timelimit, true)) + Piece(Part("videoDefinition:", resolution, true)) + Piece(Part("videoDuration:", duration, true)) + Piece(Part("videoLicense:", license, true))
  {
    var parts := VideosParts(timelimit, resolution, duration, license);
    assert parts[..0] == [];
    FilterStringPrefix(parts, 0);
    FilterStringPrefix(parts, 1);
    FilterStringPrefix(parts, 2);
    FilterStringPrefix(parts, 3);
    assert parts[..4] == parts;
  }

  /** The videos filter, built the same way. */
  method VideosFilter(timelimit: string, resolution: string, duration: string, license: string)
    returns (f: string)
    ensures f == FilterString(VideosParts(timelimit, resolution, duration, license))
  {
    f := "";
    f := AppendPiece(f, "publishedAfter:", timelimit, true);
    f := AppendPiece(f, "videoDefinition:", resolution, true);
    f := AppendPiece(f, "videoDuration:", duration, true);
    f := AppendPiece(f, "videoLicense:", license, true);
    VideosPieces(timelimit, resolution, duration, license);
  }

  /** The filter string is empty exactly when every argument is, which is
      when the `f` parameter is left out. */
  lemma {:induction false} FilterStringEmpty(parts: seq<Part>)
    ensures FilterString(parts) == "" <==> forall i :: 0 <= i < |parts| ==> parts[i].value == ""
    decreases |parts|
  {
    if parts != [] {
      var init := parts[..|parts| - 1];
      FilterStringEmpty(init);
      assert forall i :: 0 <= i < |init| ==> init[i] == parts[i];
    }
  }

  // ---------------------------------------------------------------------
  // Reading a filter string back

  /** The position of the first comma, or the length when there is none. */
  function FirstComma(s: string): (r: nat)
    ensures r <= |s|
    ensures r < |s| ==> s[r] == ','
    ensures forall i :: 0 <= i < r ==> s[i] != ','
    decreases |s|
  {
    if s == [] || s[0] == ',' then 0 else 1 + FirstComma(s[1..])
  }

  /** The comma-separated fields of a string; a final comma ends the last
      field rather than starting an empty one. */
  function Fields(s: string): seq<string>
    decreases |s|
  {
    if s == "" then []
    else
      var i := FirstComma(s);
      if i == |s| then [s] else [s[..i]] + Fields(s[i + 1..])
  }

  /** The comma-terminated concatenation of some entries. */
  function Terminated(es: seq<string>): string
    decreases |es|
  {
    if es == [] then "" else es[0] + "," + Terminated(es[1..])
  }

  lemma {:induction false} TerminatedSnoc(es: seq<string>, e: string)
    ensures Terminated(es + [e]) == Terminated(es) + e + ","
    decreases |es|
  {
    if es == [] {
      assert es + [e] == [e];
    } else {
      assert (es + [e])[1..] == es[1..] + [e];
      TerminatedSnoc(es[1..], e);
    }
  }

  /** Comma-terminated arguments give the comma-terminated entries. */
  lemma {:induction false} FilterStringTerminated(parts: seq<Part>)
    requires forall i :: 0 <= i < |parts| ==> parts[i].comma
    ensures FilterString(parts) == Terminated(Entries(parts))
    decreases |parts|
  {
    if parts != [] {
      var init := parts[..|parts| - 1];
      var p := parts[|parts| - 1];
      FilterStringTerminated(init);
      if |p.value| > 0 {
        TerminatedSnoc(Entries(init), p.prefix + p.value);
      } else {
        assert Entries(init) + [] == Entries(init);
      }
    }
  }

  /** The first comma after a comma-free entry is the one that ends it. */
  lemma {:induction false} FirstCommaAfter(e: string, rest: string)
    requires ',' !in e
    ensures FirstComma(e + "," + rest) == |e|
    decreases |e|
  {
    if e != [] {
      assert (e + "," + rest)[1..] == e[1..] + "," + rest;
      FirstCommaAfter(e[1..], rest);
    }
  }

  /** A comma-free entry and its comma read back as one field. */
  lemma FieldsCons(e: string, rest: string)
    requires ',' !in e
    ensures Fields(e + "," + rest) == [e] + Fields(rest)
  {
    var s := e + "," + rest;
    FirstCommaAfter(e, rest);
    assert s[..|e|] == e;
    assert s[|e| + 1..] == rest;
  }

  /** Reading back comma-free entries, followed by an optional last entry
      without a comma, recovers them. */
  lemma {:induction false} FieldsOfTerminated(es: seq<string>, last: string)
    requires forall i :: 0 <= i < |es| ==> ',' !in es[i]
    requires ',' !in last
    ensures Fields(Terminated(es) + last) == es + (if last == "" then [] else [last])
    decreases |es|
  {
    if es == [] {
      assert Terminated(es) + last == last;
      if last != "" {
        assert FirstComma(last) == |last|;
      }
    } else {
      var rest := Terminated(es[1..]) + last;
      assert Terminated(es) + last == es[0] + "," + rest;
      FieldsCons(es[0], rest);
      FieldsOfTerminated(es[1..], last);
      assert es == [es[0]] + es[1..];
    }
  }

  /** An entry is comma-free when its name and argument are. */
  predicate CommaFree(parts: seq<Part>) {
    forall i :: 0 <= i < |parts| ==> ',' !in parts[i].prefix && ',' !in parts[i].value
  }

  lemma {:induction false} EntriesCommaFree(parts: seq<Part>)
    requires CommaFree(parts)
    ensures forall i :: 0 <= i < |Entries(parts)| ==> ',' !in Entries(parts)[i]
    decreases |parts|
  {
    if parts != [] {
      EntriesCommaFree(parts[..|parts| - 1]);
    }
  }

  /** The videos filter round-trips: splitting it at its commas gives the
      `name:value` entries of the non-empty arguments, in order, as long as
      no argument holds a comma. */
  lemma VideosFilterFields(timelimit: string, resolution: string, duration: string, license: string)
    requires CommaFree(VideosParts(timelimit, resolution, duration, license))
    ensures var parts := VideosParts(timelimit, resolution, duration, license);
      Fields(FilterString(parts)) == Entries(parts)
  {
    var parts := VideosParts(timelimit, resolution, duration, license);
    FilterStringTerminated(parts);
    EntriesCommaFree(parts);
    FieldsOfTerminated(Entries(parts), "");
    assert Terminated(Entries(parts)) + "" == Terminated(Entries(parts));
  }

  /** An argument without a comma contributes a comma-free piece. */
  lemma PieceCommaFree(p: Part)
    requires !p.comma && ',' !in p.prefix && ',' !in p.value
    ensures ',' !in Piece(p)
    ensures p.value != "" ==> Piece(p) == p.prefix + p.value
  {
    if p.value != "" {
      var piece := Piece(p);
      assert piece == p.prefix + p.value;
      forall i | 0 <= i < |piece| ensures piece[i] != ',' {
        if i < |p.prefix| {
          assert piece[i] == p.prefix[i];
        } else {
          assert piece[i] == p.value[i - |p.prefix|];
        }
      }
    }
  }

  /** Comma-terminated arguments followed by one that is not read back as
      their entries. */
  lemma FieldsWithLast(init: seq<Part>, p: Part)
    requires forall i :: 0 <= i < |init| ==> init[i].comma
    requires CommaFree(init) && !p.comma && ',' !in p.prefix && ',' !in p.value
    ensures Fields(FilterString(init + [p])) == Entries(init + [p])
  {
    FilterStringSnoc(init, p);
    EntriesSnoc(init, p);
    FilterStringTerminated(init);
    EntriesCommaFree(init);
    PieceCommaFree(p);
    FieldsOfTerminated(Entries(init), Piece(p));
  }

  /** The images filter round-trips the same way; the license entry, last
      and not comma-terminated, is still read back as a field of its own. */
  lemma ImagesFilterFields(timelimit: string, size: string, color: string, typeImage: string, layout: string, license: string)
    requires CommaFree(ImagesParts(timelimit, size, color, typeImage, layout, license))
    ensures var parts := ImagesParts(timelimit, size, color, typeImage, layout, license);
      Fields(FilterString(parts)) == Entries(parts)
  {
    var init := ImagesTerminated(timelimit, size, color, typeImage, layout);
    var p := Part("license:", license, false);
    var parts := init + [p];
    assert CommaFree(init) by {
      forall i | 0 <= i < |init| ensures ',' !in init[i].prefix && ',' !in init[i].value {
        assert init[i] == parts[i];
      }
    }
    assert parts[5] == p;
    FieldsWithLast(init, p);
  }
}
