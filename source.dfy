/** Where the handler takes the video from (app/api/analyze/tactics/route.ts,
    lines 99-102, 128-165): the request body's two fields, which of them
    wins, the size limit on stored files, and the display name given to a
    preset video. */
module Source {
  import opened Wrappers
  import opened Text

  /** The parsed request body; a field the client left out is `None`. */
  datatype RequestBody = RequestBody(filename: Option<string>, presetUrl: Option<string>)

  /** A string field is "given" when it is truthy: present and not empty. */
  predicate Given(field: Option<string>) {
    field.Some? && field.value != ""
  }

  /** The branch the handler takes for a request body. */
  datatype Choice = NoSource | StoredFile(filename: string) | Preset(url: string)

  /** `filename` is tested before `presetUrl`, so it wins when both are given. */
  function SelectSource(body: RequestBody): (c: Choice)
    ensures c.NoSource? <==> !Given(body.filename) && !Given(body.presetUrl)
    ensures c.StoredFile? <==> Given(body.filename)
    ensures c.StoredFile? ==> c.filename == body.filename.value
    ensures c.Preset? <==> !Given(body.filename) && Given(body.presetUrl)
    ensures c.Preset? ==> c.url == body.presetUrl.value
  {
    if Given(body.filename) then StoredFile(body.filename.value)
    else if Given(body.presetUrl) then Preset(body.presetUrl.value)
    else NoSource
  }

  // ---------------------------------------------------------------------
  // The size guard on stored files
  // ---------------------------------------------------------------------

  /** 20 MiB. */
  const MaxStoredBytes: nat := 20 * 1024 * 1024

  /** `fileMeta.size?.toString() ?? '0'`. */
  function SizeText(size: Option<string>): string {
    if size.Some? then size.value else "0"
  }

  /** `parseInt(..., 10) > 20 * 1024 * 1024`; `NaN > n` is false, so a size
      that does not parse lets the file through. */
  predicate TooLarge(size: Option<string>) {
    var n := ParseInt(SizeText(size));
    n.Some? && n.value > MaxStoredBytes
  }

  /** A size reported as the decimal text of `n` is refused exactly when it
      exceeds the limit: the limit itself is accepted. */
  lemma TooLargeIff(n: nat)
    ensures TooLarge(Some(Decimal(n))) <==> n > MaxStoredBytes
  {
    ParseDecimal(n);
  }

  /** A missing size counts as 0 bytes. */
  lemma MissingSizeAccepted()
    ensures !TooLarge(None)
  {
    ParseDecimal(0);
  }

  /** A size with no leading digits is `NaN`, and `NaN` is not too large. */
  lemma UnreadableSizeAccepted(size: string)
    requires |size| > 0 && !IsJsSpace(size[0]) && !IsDigit(size[0]) && size[0] != '-' && size[0] != '+'
    ensures !TooLarge(Some(size))
  {
    assert TrimStart(size) == size;
  }

  // ---------------------------------------------------------------------
  // Defaults
  // ---------------------------------------------------------------------

  const DefaultMimeType := "video/mp4"

  /** `value || fallback` for a string that may be absent. */
  function OrDefault(value: Option<string>, fallback: string): string {
    if Given(value) then value.value else fallback
  }

  // ---------------------------------------------------------------------
  // The display name of a preset video
  // ---------------------------------------------------------------------

  /** `url.substring(url.lastIndexOf('/') + 1)`. */
  function LastSegment(url: string): (r: string)
    ensures |r| <= |url| && r == url[|url| - |r|..]
    ensures '/' !in r
    ensures |r| < |url| ==> url[|url| - |r| - 1] == '/'
  {
    var p := LastIndexOf(url, '/') + 1;
    assert forall k :: 0 <= k < |url| - p ==> url[p..][k] == url[p + k];
    url[p..]
  }

  /** `LastSegment(url).split('?')[0] || 'preset-' + now`, where `now` is the
      value of `Date.now()` at the time of the request. */
  function PresetDisplayName(url: string, now: nat): (name: string)
    ensures name != ""
    ensures '/' !in name && '?' !in name
  {
    var segment := BeforeFirst(LastSegment(url), '?');
    PrefixAvoids(segment, LastSegment(url), '/');
    if segment != "" then segment
    else
      DefaultNameAvoids(now, '/');
      DefaultNameAvoids(now, '?');
      "preset-" + Decimal(now)
  }

  /** A prefix of a text without `c` holds no `c` either. */
  lemma PrefixAvoids(prefix: string, s: string, c: char)
    requires prefix <= s && c !in s
    ensures c !in prefix
  {
  }

  /** The timestamped default name holds only `preset-` and digits. */
  lemma DefaultNameAvoids(now: nat, c: char)
    requires c in "/?"
    ensures c !in "preset-" + Decimal(now)
  {
  }

  /** `url[i..j]` is the text between the last '/' of `url` (or its start)
      and the first '?' after it (or its end). */
  predicate SegmentAt(url: string, i: nat, j: nat) {
    i <= j <= |url| &&
    (i == 0 || url[i - 1] == '/') &&
    (forall k :: i <= k < |url| ==> url[k] != '/') &&
    (forall k :: i <= k < j ==> url[k] != '?') &&
    (j == |url| || url[j] == '?')
  }

  /** A suffix of `url` after its last '/', cut before its first '?', is a
      segment in the sense of `SegmentAt`, and the cut is that slice of
      `url`. */
  lemma SuffixSegment(url: string, seg: string, name: string)
    requires |seg| <= |url| && seg == url[|url| - |seg|..] && '/' !in seg
    requires |seg| < |url| ==> url[|url| - |seg| - 1] == '/'
    requires name <= seg && '?' !in name && (|name| < |seg| ==> seg[|name|] == '?')
    ensures SegmentAt(url, |url| - |seg|, |url| - |seg| + |name|)
    ensures name == url[|url| - |seg|..|url| - |seg| + |name|]
  {
    var i := |url| - |seg|;
    var j := i + |name|;
    assert forall k :: i <= k < |url| ==> url[k] == seg[k - i];
    assert forall k :: i <= k < j ==> url[k] == name[k - i];
  }

  /** The segment the display name is cut from. */
  lemma NameSegment(url: string)
    ensures var seg := LastSegment(url);
      SegmentAt(url, |url| - |seg|, |url| - |seg| + |BeforeFirst(seg, '?')|)
    ensures var seg := LastSegment(url);
      BeforeFirst(seg, '?') == url[|url| - |seg|..|url| - |seg| + |BeforeFirst(seg, '?')|]
  {
    SuffixSegment(url, LastSegment(url), BeforeFirst(LastSegment(url), '?'));
  }

  /** Every URL has such a segment... */
  lemma SegmentExists(url: string)
    ensures exists i: nat, j: nat :: SegmentAt(url, i, j)
  {
    NameSegment(url);
  }

  /** ...and only one. */
  lemma SegmentUnique(url: string, i: nat, j: nat, i': nat, j': nat)
    requires SegmentAt(url, i, j) && SegmentAt(url, i', j')
    ensures i == i' && j == j'
  {
  }

  /** The display name is that segment, or the timestamped default
      when the segment is empty. */
  lemma DisplayNameIsSegment(url: string, now: nat, i: nat, j: nat)
    requires SegmentAt(url, i, j)
    ensures PresetDisplayName(url, now) == if i < j then url[i..j] else "preset-" + Decimal(now)
  {
    var seg := LastSegment(url);
    var name := BeforeFirst(seg, '?');
    NameSegment(url);
    SegmentUnique(url, i, j, |url| - |seg|, |url| - |seg| + |name|);
    assert name == url[i..j];
    assert PresetDisplayName(url, now) == if name != "" then name else "preset-" + Decimal(now);
  }
}
