/**
 * User messages with images: the client's check of the attachments of a text
 * (crates/morons-cli/src/sessions.rs) and the server's splitting of that text into provider parts
 * (crates/morons-server/src/run_supervisor.rs).  Text is its UTF-8 bytes.
 */
module ImageMessage {
  import opened Basics

  type Text = seq<Byte>

  const MAX_ATTACHMENTS := 4
  const MAX_NAME_BYTES := 128
  const MAX_AGGREGATE_BYTES := 6 * 1024 * 1024
  const MAX_DIMENSION := 2048
  const MAX_IMAGE_BYTES := 2 * 1024 * 1024

  datatype MediaType = Png | Jpeg | Gif | OtherMedia

  datatype Attachment = Attachment(id: nat, name: Text, markerStart: nat, mediaType: MediaType, width: nat, height: nat, bytes: nat)

  datatype Part = TextPart(text: Text) | ImagePart(mediaType: MediaType, width: nat, height: nat, bytes: seq<Byte>)

  /** A position where a character starts, or the end: not at a UTF-8 continuation byte. */
  predicate Boundary(text: Text, i: nat)
  {
    i == |text| || (i < |text| && !(0x80 <= text[i] < 0xc0)) || i == 0
  }

  /** `str::get(from..to)`. */
  function Get(text: Text, from: nat, to: nat): Option<Text>
  {
    if from <= to <= |text| && Boundary(text, from) && Boundary(text, to) then Some(text[from..to]) else None
  }

  /** The marker of an image in its text: its name in square brackets. */
  function Marker(a: Attachment): (m: Text)
    ensures |m| == |a.name| + 2
  {
    [0x5b] + a.name + [0x5d]
  }

  function MarkerEnd(a: Attachment): nat
  {
    a.markerStart + |a.name| + 2
  }

  // ----- the client's check -----

  predicate AcceptableImage(a: Attachment, displayable: Text -> bool)
  {
    && a.id != 0 && a.name != [] && |a.name| <= MAX_NAME_BYTES && displayable(a.name)
    && !a.mediaType.OtherMedia?
    && 0 < a.width <= MAX_DIMENSION && 0 < a.height <= MAX_DIMENSION
    && 0 < a.bytes <= MAX_IMAGE_BYTES
  }

  function TotalBytes(attachments: seq<Attachment>): nat
  {
    if attachments == [] then 0 else TotalBytes(attachments[..|attachments| - 1]) + attachments[|attachments| - 1].bytes
  }

  function EndBefore(attachments: seq<Attachment>, k: nat): nat
    requires k <= |attachments|
  {
    if k == 0 then 0 else MarkerEnd(attachments[k - 1])
  }

  /** Attachment `k` is fine by itself, new, after the one before, and its marker is where it says. */
  ghost predicate ValidAt(text: Text, attachments: seq<Attachment>, displayable: Text -> bool, k: nat)
    requires k < |attachments|
  {
    var a := attachments[k];
    && AcceptableImage(a, displayable) && MarkerEnd(a) <= USIZE_MAX
    && (forall j :: 0 <= j < k ==> attachments[j].id != a.id && attachments[j].name != a.name)
    && TotalBytes(attachments[..k + 1]) <= MAX_AGGREGATE_BYTES
    && a.markerStart >= EndBefore(attachments, k)
    && Get(text, a.markerStart, MarkerEnd(a)) == Some(Marker(a))
  }

  ghost predicate ValidAttachments(text: Text, attachments: seq<Attachment>, displayable: Text -> bool)
  {
    |attachments| <= MAX_ATTACHMENTS && forall k :: 0 <= k < |attachments| ==> ValidAt(text, attachments, displayable, k)
  }

  /** One step of the check, on the running values of the loop. */
  predicate PassesNext(text: Text, a: Attachment, displayable: Text -> bool, ids: set<nat>, names: set<Text>,
                       aggregate: nat, lastEnd: nat)
  {
    && MarkerEnd(a) <= USIZE_MAX
    && a.id !in ids && a.name !in names
    && AcceptableImage(a, displayable)
    && aggregate + a.bytes <= MAX_AGGREGATE_BYTES
    && a.markerStart >= lastEnd
    && Get(text, a.markerStart, MarkerEnd(a)) == Some(Marker(a))
  }

  lemma {:induction false} PassesNextIsValidAt(text: Text, attachments: seq<Attachment>,
        displayable: Text -> bool, k: nat)
    requires k < |attachments|
    ensures var ids := set j | 0 <= j < k :: attachments[j].id;
            var names := set j | 0 <= j < k :: attachments[j].name;
            PassesNext(text, attachments[k], displayable, ids, names, TotalBytes(attachments[..k]), EndBefore(attachments, k))
            == ValidAt(text, attachments, displayable, k)
  {
    hide AcceptableImage, Get;
    assert attachments[..k + 1][..k] == attachments[..k];
  }

  method ValidImageAttachments(text: Text, attachments: seq<Attachment>, displayable: Text -> bool) returns (ok: bool)
    ensures ok == ValidAttachments(text, attachments, displayable)
  {
    hide PassesNext, ValidAt;
    if |attachments| > MAX_ATTACHMENTS { return false; }
    var lastEnd, aggregate := 0, 0;
    var ids: set<nat> := {};
    var names: set<Text> := {};
    for k := 0 to |attachments|
      invariant lastEnd == EndBefore(attachments, k) && aggregate == TotalBytes(attachments[..k])
      invariant ids == set j | 0 <= j < k :: attachments[j].id
      invariant names == set j | 0 <= j < k :: attachments[j].name
      invariant forall j :: 0 <= j < k ==> ValidAt(text, attachments, displayable, j)
    {
      var a := attachments[k];
      PassesNextIsValidAt(text, attachments, displayable, k);
      if !PassesNext(text, a, displayable, ids, names, aggregate, lastEnd) {
        return false;
      }
      assert attachments[..k + 1][..k] == attachments[..k];
      ids := ids + {a.id};
      names := names + {a.name};
      aggregate := aggregate + a.bytes;
      lastEnd := MarkerEnd(a);
    }
    return true;
  }

  // ----- the server's split -----

  function TextOf(parts: seq<Part>): Text
  {
    if parts == [] then []
    else TextOf(parts[..|parts| - 1]) + (if parts[|parts| - 1].TextPart? then parts[|parts| - 1].text else [])
  }

  /** The stored image of an attachment, when it is there with the recorded length. */
  predicate Present(a: Attachment, data: map<nat, seq<Byte>>)
  {
    a.id in data && |data[a.id]| == a.bytes
  }

  /** Attachment `k` ends a non-empty piece of text at a character boundary, and its image is there. */
  predicate SplitsAt(text: Text, attachments: seq<Attachment>, data: map<nat, seq<Byte>>, k: nat)
    requires k < |attachments|
  {
    var from, to := EndBefore(attachments, k), MarkerEnd(attachments[k]);
    from < to <= |text| && to <= USIZE_MAX && Boundary(text, from) && Boundary(text, to) && Present(attachments[k], data)
  }

  /** Text and image of attachment `k` stand next to each other at places `2k` and `2k + 1`. */
  predicate PairedAt(text: Text, attachments: seq<Attachment>, data: map<nat, seq<Byte>>, parts: seq<Part>, k: nat)
    requires k < |attachments|
  {
    var a := attachments[k];
    && 2 * k + 1 < |parts| && a.id in data
    && EndBefore(attachments, k) < MarkerEnd(a) <= |text|
    && parts[2 * k] == TextPart(text[EndBefore(attachments, k)..MarkerEnd(a)])
    && parts[2 * k + 1] == ImagePart(a.mediaType, a.width, a.height, data[a.id])
  }

  lemma {:induction false} TextOfExtends(parts: seq<Part>, part: Part)
    ensures TextOf(parts + [part]) == TextOf(parts) + (if part.TextPart? then part.text else [])
  {
    assert (parts + [part])[..|parts|] == parts;
  }

  /** The parts built for the first `k` attachments. */
  ghost predicate SplitTo(text: Text, attachments: seq<Attachment>, data: map<nat, seq<Byte>>, k: nat, parts: seq<Part>)
    requires k <= |attachments|
  {
    && |parts| == 2 * k && EndBefore(attachments, k) <= |text| && Boundary(text, EndBefore(attachments, k))
    && TextOf(parts) == text[..EndBefore(attachments, k)]
    && (forall j :: 0 <= j < k ==> SplitsAt(text, attachments, data, j) && PairedAt(text, attachments, data, parts, j))
    && (forall p :: p in parts && p.TextPart? ==> p.text != [])
  }

  lemma {:induction false} PairsStay(text: Text, attachments: seq<Attachment>, data: map<nat, seq<Byte>>,
        parts: seq<Part>, longer: seq<Part>, k: nat)
    requires k <= |attachments| && parts <= longer
    requires forall j :: 0 <= j < k ==> PairedAt(text, attachments, data, parts, j)
    ensures forall j :: 0 <= j < k ==> PairedAt(text, attachments, data, longer, j)
  {
    forall j | 0 <= j < k ensures PairedAt(text, attachments, data, longer, j) {
      assert PairedAt(text, attachments, data, parts, j);
    }
  }

  lemma {:induction false} SplitOneMore(text: Text, attachments: seq<Attachment>, data: map<nat, seq<Byte>>,
        k: nat, parts: seq<Part>)
    requires k < |attachments| && SplitTo(text, attachments, data, k, parts) && SplitsAt(text, attachments, data, k)
    ensures var a := attachments[k];
            SplitTo(text, attachments, data, k + 1,
                    parts + [TextPart(text[EndBefore(attachments, k)..MarkerEnd(a)]),
                             ImagePart(a.mediaType, a.width, a.height, data[a.id])])
  {
    hide Boundary, Marker;
    var a := attachments[k];
    var from, end := EndBefore(attachments, k), MarkerEnd(a);
    var words, image := TextPart(text[from..end]), ImagePart(a.mediaType, a.width, a.height, data[a.id]);
    var longer := parts + [words, image];
    assert longer == (parts + [words]) + [image];
    TextOfExtends(parts, words);
    TextOfExtends(parts + [words], image);
    assert text[..end] == text[..from] + text[from..end];
    PairsStay(text, attachments, data, parts, longer, k);
    assert PairedAt(text, attachments, data, longer, k);
  }

  lemma {:induction false} SplitEnds(text: Text, attachments: seq<Attachment>, data: map<nat, seq<Byte>>,
        parts: seq<Part>)
    requires SplitTo(text, attachments, data, |attachments|, parts) && EndBefore(attachments, |attachments|) < |text|
    ensures var all := parts + [TextPart(text[EndBefore(attachments, |attachments|)..])];
            && TextOf(all) == text && (forall k :: 0 <= k < |attachments| ==> PairedAt(text, attachments, data, all, k))
            && (forall p :: p in all && p.TextPart? ==> p.text != [])
  {
    hide Boundary, Marker;
    var cursor := EndBefore(attachments, |attachments|);
    var rest := TextPart(text[cursor..]);
    TextOfExtends(parts, rest);
    assert text == text[..cursor] + text[cursor..];
    PairsStay(text, attachments, data, parts, parts + [rest], |attachments|);
  }

  method MultimodalUserMessage(text: Text, attachments: seq<Attachment>, data: map<nat, seq<Byte>>)
    returns (r: Result<seq<Part>, ()>)
    ensures r.Ok? <==> forall k :: 0 <= k < |attachments| ==> SplitsAt(text, attachments, data, k)
    ensures r.Ok? ==>
              && TextOf(r.value) == text
              && (forall k :: 0 <= k < |attachments| ==> PairedAt(text, attachments, data, r.value, k))
              && |r.value| == 2 * |attachments| + (if EndBefore(attachments, |attachments|) < |text| then 1 else 0)
              && (forall p :: p in r.value && p.TextPart? ==> p.text != [])
  {
    hide TextOf, PairedAt, Boundary, Marker;
    var parts: seq<Part> := [];
    var cursor := 0;
    NothingSplit(text, attachments, data);
    for k := 0 to |attachments|
      invariant cursor == EndBefore(attachments, k) && SplitTo(text, attachments, data, k, parts)
    {
      var a := attachments[k];
      var end := MarkerEnd(a);
      var piece := Get(text, cursor, end);
      if end > USIZE_MAX || piece.None? || piece.value == [] || !Present(a, data) {
        assert !SplitsAt(text, attachments, data, k);
        return Err(());
      }
      SplitOneMore(text, attachments, data, k, parts);
      parts := parts + [TextPart(piece.value), ImagePart(a.mediaType, a.width, a.height, data[a.id])];
      cursor := end;
    }
    var remainder := Get(text, cursor, |text|);
    assert Boundary(text, |text|) by { EndIsABoundary(text); }
    if remainder.Some? && remainder.value != [] {
      SplitEnds(text, attachments, data, parts);
      assert remainder.value == text[cursor..];
      parts := parts + [TextPart(remainder.value)];
    } else {
      assert text[..cursor] == text;
    }
    return Ok(parts);
  }

  lemma {:induction false} NothingSplit(text: Text, attachments: seq<Attachment>, data: map<nat, seq<Byte>>)
    ensures SplitTo(text, attachments, data, 0, [])
  {
  }

  lemma {:induction false} EndIsABoundary(text: Text)
    ensures Boundary(text, |text|)
  {
  }

  // ----- the two sides agree -----

  predicate EndsWith(text: Text, suffix: Text)
  {
    |suffix| <= |text| && text[|text| - |suffix|..] == suffix
  }

  /** What the client accepts the server can split, once the images are stored with their recorded length. */
  lemma {:induction false} AcceptedAttachmentsSplit(text: Text, attachments: seq<Attachment>,
        displayable: Text -> bool, data: map<nat, seq<Byte>>)
    requires ValidAttachments(text, attachments, displayable)
    requires forall a :: a in attachments ==> Present(a, data)
    ensures forall k :: 0 <= k < |attachments| ==> SplitsAt(text, attachments, data, k)
  {
    forall k | 0 <= k < |attachments| ensures SplitsAt(text, attachments, data, k) {
      assert ValidAt(text, attachments, displayable, k);
      assert attachments[k] in attachments;
      if k > 0 { assert ValidAt(text, attachments, displayable, k - 1); }
    }
  }

  /** And every text part before an image then ends in that image's marker. */
  lemma {:induction false} PartsEndInTheirMarker(text: Text, attachments: seq<Attachment>,
        displayable: Text -> bool, data: map<nat, seq<Byte>>,
                              parts: seq<Part>, k: nat)
    requires ValidAttachments(text, attachments, displayable) && k < |attachments|
    requires PairedAt(text, attachments, data, parts, k)
    ensures EndsWith(parts[2 * k].text, Marker(attachments[k]))
  {
    assert ValidAt(text, attachments, displayable, k);
    var a := attachments[k];
    var piece := parts[2 * k].text;
    assert piece[|piece| - |Marker(a)|..] == text[a.markerStart..MarkerEnd(a)];
  }
}
