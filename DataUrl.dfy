/**
 * The attachment body that both servers cut out of a canvas data URL with
 * `imageData.split("base64,")[1]` (server.js line 82, api/server.js line 74).
 *
 * `Split` follows ECMAScript's String.prototype.split for a non-empty string
 * separator and no limit: the string is cut at every occurrence of the
 * separator, scanning left to right without overlaps. Indexing the resulting
 * array at 1 yields `undefined` (here `None`) when there is no second piece.
 */
module DataUrl {
  import opened Wrappers

  /** The marker that separates the header of a base64 data URL from its payload. */
  const Marker: string := "base64,"

  /** `m` occurs in `s` starting at index `i`. */
  predicate OccursAt(s: string, m: string, i: nat)
  {
    i + |m| <= |s| && s[i..i + |m|] == m
  }

  /** `m` occurs nowhere in `s`. */
  predicate Free(s: string, m: string)
  {
    forall i: nat :: i <= |s| ==> !OccursAt(s, m, i)
  }

  /** The first index at or after `from` where `m` occurs in `s` (String.prototype.indexOf). */
  function IndexOf(s: string, m: string, from: nat): (r: Option<nat>)
    requires |m| > 0
    ensures r.Some? ==> from <= r.value && OccursAt(s, m, r.value)
    ensures r.Some? ==> forall k: nat :: from <= k < r.value ==> !OccursAt(s, m, k)
    ensures r.None? ==> forall k: nat :: from <= k ==> !OccursAt(s, m, k)
    decreases |s| - from
  {
    if from + |m| > |s| then None
    else if s[from..from + |m|] == m then Some(from)
    else IndexOf(s, m, from + 1)
  }

  /** `s.split(m)` for a non-empty string separator `m`. */
  function Split(s: string, m: string): (parts: seq<string>)
    requires |m| > 0
    ensures |parts| >= 1
    decreases |s|
  {
    match IndexOf(s, m, 0)
    case None => [s]
    case Some(i) => [s[..i]] + Split(s[i + |m|..], m)
  }

  /** `a.join(m)`: the pieces with `m` between consecutive ones. */
  function Join(parts: seq<string>, m: string): string
  {
    if |parts| == 0 then ""
    else if |parts| == 1 then parts[0]
    else parts[0] + m + Join(parts[1..], m)
  }

  /** `imageData.split("base64,")[1]`: the attachment content handed to the mailer. */
  function Attachment(imageData: string): (r: Option<string>)
    ensures r.None? <==> IndexOf(imageData, Marker, 0).None?
  {
    var parts := Split(imageData, Marker);
    if |parts| >= 2 then Some(parts[1]) else None
  }

  /** Splitting never loses text: joining the pieces with the separator gives the string back. */
  lemma {:induction false} SplitJoin(s: string, m: string)
    requires |m| > 0
    ensures Join(Split(s, m), m) == s
    decreases |s|
  {
    match IndexOf(s, m, 0)
    case None =>
    case Some(i) =>
      var rest := s[i + |m|..];
      SplitJoin(rest, m);
      JoinCons(s, m, i, Split(rest, m));
  }

  /** Gluing the text before an occurrence of `m` onto pieces that join to the text after it. */
  lemma JoinCons(s: string, m: string, i: nat, tail: seq<string>)
    requires |tail| >= 1 && i + |m| <= |s| && s[i..i + |m|] == m
    requires Join(tail, m) == s[i + |m|..]
    ensures Join([s[..i]] + tail, m) == s
  {
    var parts := [s[..i]] + tail;
    assert parts[0] == s[..i] && parts[1..] == tail;
    Reassemble(s, i, i + |m|);
  }

  /** Cutting a string in three places and gluing the pieces back is the identity. */
  lemma Reassemble(s: string, i: nat, j: nat)
    requires i <= j <= |s|
    ensures s[..i] + s[i..j] + s[j..] == s
  {
  }

  /** No piece produced by `Split` contains the separator. */
  lemma {:induction false} SplitPiecesFree(s: string, m: string, k: nat)
    requires |m| > 0
    requires k < |Split(s, m)|
    ensures Free(Split(s, m)[k], m)
    decreases |s|
  {
    match IndexOf(s, m, 0)
    case None =>
      assert Split(s, m)[k] == s;
    case Some(i) =>
      if k == 0 {
        FreePrefix(s, m, i);
      } else {
        SplitPiecesFree(s[i + |m|..], m, k - 1);
      }
  }

  /** The text before the first occurrence of `m` does not contain `m`. */
  lemma FreePrefix(s: string, m: string, i: nat)
    requires |m| > 0 && i <= |s|
    requires forall k: nat :: k < i ==> !OccursAt(s, m, k)
    ensures Free(s[..i], m)
  {
    forall k: nat ensures !OccursAt(s[..i], m, k) {
      if OccursAt(s[..i], m, k) {
        assert s[..i][k..k + |m|] == s[k..k + |m|];
        assert OccursAt(s, m, k);
      }
    }
  }

  /** The attachment is absent exactly when the marker occurs nowhere in the data URL. */
  lemma AttachmentAbsent(imageData: string)
    ensures Attachment(imageData).None? <==> Free(imageData, Marker)
  {
    if IndexOf(imageData, Marker, 0).Some? {
      assert OccursAt(imageData, Marker, IndexOf(imageData, Marker, 0).value);
    }
  }

  /**
   * When present, the attachment is the text that starts right after the
   * first marker and stops at the next marker or at the end of the string;
   * it holds no marker itself.
   */
  lemma AttachmentBetween(imageData: string, i: nat)
    requires IndexOf(imageData, Marker, 0) == Some(i)
    ensures Attachment(imageData).Some?
    ensures var r := Attachment(imageData).value;
      var end := i + |Marker| + |r|;
      && end <= |imageData|
      && imageData[i + |Marker|..end] == r
      && Free(r, Marker)
      && (end == |imageData| || OccursAt(imageData, Marker, end))
  {
    var s := imageData;
    var rest := s[i + |Marker|..];
    AttachmentAfterFirst(s, i);
    var r := Split(rest, Marker)[0];
    SplitPiecesFree(rest, Marker, 0);
    FirstPieceEnds(rest, Marker);
    SliceOfSuffix(s, i + |Marker|, |r|);
    if |r| < |rest| {
      OccursInSuffix(s, Marker, i + |Marker|, |r|);
    }
  }

  /** The attachment is the first piece of what follows the first marker. */
  lemma AttachmentAfterFirst(s: string, i: nat)
    requires IndexOf(s, Marker, 0) == Some(i)
    ensures Attachment(s) == Some(Split(s[i + |Marker|..], Marker)[0])
  {
    assert Split(s, Marker) == [s[..i]] + Split(s[i + |Marker|..], Marker);
  }

  lemma SliceOfSuffix(s: string, a: nat, n: nat)
    requires a + n <= |s|
    ensures s[a..a + n] == s[a..][..n]
  {
  }

  /** An occurrence in a suffix of `s` is an occurrence in `s`, shifted by where the suffix starts. */
  lemma OccursInSuffix(s: string, m: string, a: nat, k: nat)
    requires a <= |s| && OccursAt(s[a..], m, k)
    ensures OccursAt(s, m, a + k)
  {
    assert s[a..][k..k + |m|] == s[a + k..a + k + |m|];
  }

  /** The first piece of a split is a prefix that ends at the end of the string or at a separator. */
  lemma FirstPieceEnds(s: string, m: string)
    requires |m| > 0
    ensures var r := Split(s, m)[0];
      && |r| <= |s| && s[..|r|] == r
      && (|r| == |s| || OccursAt(s, m, |r|))
  {
    match IndexOf(s, m, 0)
    case None =>
    case Some(j) =>
      assert Split(s, m)[0] == s[..j];
  }

  /** The characters of the base64 alphabet (RFC 4648, section 4), padding included. */
  predicate IsBase64Char(c: char)
  {
    ('A' <= c <= 'Z') || ('a' <= c <= 'z') || ('0' <= c <= '9') || c == '+' || c == '/' || c == '='
  }

  /**
   * A base64 data URL as section 3 of RFC 2397 writes it:
   * `data:` mediatype `;base64,` payload.
   */
  function Base64DataUrl(mediaType: string, payload: string): string
  {
    "data:" + mediaType + ";base64," + payload
  }

  /**
   * For a well-formed base64 data URL whose media type holds no comma, the
   * extracted attachment is exactly the base64 payload.
   */
  lemma {:induction false} AttachmentOfDataUrl(mediaType: string, payload: string)
    requires forall k :: 0 <= k < |mediaType| ==> mediaType[k] != ','
    requires forall k :: 0 <= k < |payload| ==> IsBase64Char(payload[k])
    ensures Attachment(Base64DataUrl(mediaType, payload)) == Some(payload)
  {
    var s := Base64DataUrl(mediaType, payload);
    var p := |"data:" + mediaType + ";"|;
    assert OccursAt(s, Marker, p) by {
      assert s[p..p + |Marker|] == Marker;
    }
    // Every occurrence ends with a comma; the only comma is the marker's own.
    forall k: nat | OccursAt(s, Marker, k)
      ensures k == p
    {
      assert s[k + 6] == s[k..k + |Marker|][6] == ',';
      assert s == "data:" + mediaType + ";" + Marker + payload;
    }
    assert IndexOf(s, Marker, 0) == Some(p);
    AttachmentBetween(s, p);
    var r := Attachment(s).value;
    assert p + |Marker| + |r| == |s|;
    assert r == s[p + |Marker|..] == payload;
  }
}
