/** The login QR code reader (`src/renderer/src/shared/utils/qrcode.ts`):
    the token carried by a scanned text, which may be a link with a
    `/q/<token>` path or a `token` query parameter, a `qrcode:<token>`
    text, or the bare token.  URL parsing (`new URL`) and percent-decoding
    (`decodeURIComponent`) are inputs: `None` stands for the exception each
    throws on input it rejects. */
module QrCode {
  import opened Wrappers
  import opened JsString

  /** What `new URL(text)` yields that the reader uses: the path and
      `searchParams.get('token')`. */
  datatype Url = Url(pathname: string, token: Option<string>)

  const SchemePrefix := "qrcode:"

  /** `safeDecodeURIComponent`: the decoded text, or the input itself when
      it cannot be decoded. */
  function SafeDecode(decode: string -> Option<string>, input: string): (r: string)
    ensures decode(input).None? ==> r == input
    ensures decode(input).Some? ==> r == decode(input).value
  {
    match decode(input)
    case Some(text) => text
    case None => input
  }

  /** A character of the `[^/?#]` class. */
  predicate SegmentChar(c: char) {
    c != '/' && c != '?' && c != '#'
  }

  /** Where `/\/q\/([^/?#]+)/i` can match: `/q/` or `/Q/`, then at least
      one segment character. */
  predicate MarkerAt(s: string, i: nat) {
    i + 3 < |s| && s[i] == '/' && (s[i + 1] == 'q' || s[i + 1] == 'Q') && s[i + 2] == '/'
    && SegmentChar(s[i + 3])
  }

  /** The number of segment characters of `s` from position `from` on. */
  function SegmentLength(s: string, from: nat): (n: nat)
    requires from <= |s|
    ensures from + n <= |s|
    ensures forall k :: from <= k < from + n ==> SegmentChar(s[k])
    ensures from + n == |s| || !SegmentChar(s[from + n])
    decreases |s| - from
  {
    if from < |s| && SegmentChar(s[from]) then 1 + SegmentLength(s, from + 1) else 0
  }

  /** The first group of the leftmost match of `/\/q\/([^/?#]+)/i` in `s`
      at or after position `from`: the longest run of segment characters
      behind the first `/q/` that has one. */
  function PathToken(s: string, from: nat): (r: Option<string>)
    requires from <= |s|
    ensures r.None? ==> forall i :: from <= i < |s| ==> !MarkerAt(s, i)
    ensures r.Some? ==>
              exists i :: from <= i < |s| && MarkerAt(s, i)
                && (forall k :: from <= k < i ==> !MarkerAt(s, k))
                && r.value == s[i + 3..i + 3 + SegmentLength(s, i + 3)]
    decreases |s| - from
  {
    if from + 3 >= |s| then None
    else if MarkerAt(s, from) then Some(s[from + 3..from + 3 + SegmentLength(s, from + 3)])
    else PathToken(s, from + 1)
  }

  /** A matched token is never empty and holds no `/`, `?` or `#`. */
  lemma PathTokenShape(s: string)
    ensures var r := PathToken(s, 0);
            r.Some? ==> r.value != "" && forall k :: 0 <= k < |r.value| ==> SegmentChar(r.value[k])
  {
    var r := PathToken(s, 0);
    if r.Some? {
      var i :| 0 <= i < |s| && MarkerAt(s, i) && r.value == s[i + 3..i + 3 + SegmentLength(s, i + 3)];
      assert SegmentLength(s, i + 3) > 0;
      forall k | 0 <= k < |r.value| ensures SegmentChar(r.value[k]) {
        assert r.value[k] == s[i + 3 + k];
      }
    }
  }

  /** `/^qrcode:/i`: the text starts with `qrcode:` in any case of
      letters. */
  predicate HasSchemePrefix(s: string) {
    |s| >= |SchemePrefix| && Lower(s[..|SchemePrefix|]) == SchemePrefix
  }

  /** The token of a parsed link: the decoded `/q/` segment, else a
      non-empty `token` parameter, each trimmed; none when the link has
      neither. */
  function LinkToken(url: Url, decode: string -> Option<string>): (r: Option<string>)
    ensures r.Some? ==> Trim(r.value) == r.value
  {
    match PathToken(url.pathname, 0)
    case Some(segment) =>
      TrimIdempotent(SafeDecode(decode, segment));
      Some(Trim(SafeDecode(decode, segment)))
    case None =>
      TrimIdempotent(url.token.GetOr(""));
      if url.token.Some? && url.token.value != "" then Some(Trim(url.token.value)) else None
  }

  /** `extractQRCodeToken`: the token never starts or ends with white
      space, and blank input gives the empty token. */
  function ExtractQRCodeToken(input: string, parseUrl: string -> Option<Url>, decode: string -> Option<string>)
    : (r: string)
    ensures Trim(r) == r
    ensures AllSpace(input) ==> r == ""
  {
    TrimEmptyIffBlank(input);
    TrimIdempotent(input);
    var normalized := Trim(input);
    if normalized == "" then ""
    else
      var fromLink := if parseUrl(normalized).Some? then LinkToken(parseUrl(normalized).value, decode) else None;
      if fromLink.Some? then fromLink.value
      else
        match PathToken(normalized, 0)
        case Some(segment) =>
          TrimIdempotent(SafeDecode(decode, segment));
          Trim(SafeDecode(decode, segment))
        case None =>
          if HasSchemePrefix(normalized) then
            TrimIdempotent(normalized[|SchemePrefix|..]);
            Trim(normalized[|SchemePrefix|..])
          else normalized
  }

  /** Text that is no link, has no `/q/` segment and no `qrcode:` prefix is
      the token itself, trimmed. */
  lemma RawToken(input: string, parseUrl: string -> Option<Url>, decode: string -> Option<string>)
    requires parseUrl(Trim(input)).None?
    requires forall i :: 0 <= i < |Trim(input)| ==> !MarkerAt(Trim(input), i)
    requires !HasSchemePrefix(Trim(input))
    ensures ExtractQRCodeToken(input, parseUrl, decode) == Trim(input)
  {
  }

  /** A `/q/` segment that cannot be decoded is returned as it is,
      trimmed. */
  lemma UndecodableSegment(input: string, parseUrl: string -> Option<Url>, decode: string -> Option<string>)
    requires parseUrl(Trim(input)).None?
    requires PathToken(Trim(input), 0).Some? && decode(PathToken(Trim(input), 0).value).None?
    ensures ExtractQRCodeToken(input, parseUrl, decode) == Trim(PathToken(Trim(input), 0).value)
  {
  }

  /** A link whose path is `/q/<segment>`, the segment ending the path or
      followed by `/`, `?` or `#`, gives the decoded segment, trimmed. */
  lemma LinkPathToken(input: string, parseUrl: string -> Option<Url>, decode: string -> Option<string>,
                      segment: string, tail: string)
    requires !AllSpace(input)
    requires parseUrl(Trim(input)).Some? && parseUrl(Trim(input)).value.pathname == "/q/" + segment + tail
    requires segment != [] && forall k :: 0 <= k < |segment| ==> SegmentChar(segment[k])
    requires tail == [] || !SegmentChar(tail[0])
    ensures ExtractQRCodeToken(input, parseUrl, decode) == Trim(SafeDecode(decode, segment))
  {
    TrimEmptyIffBlank(input);
    var path := parseUrl(Trim(input)).value.pathname;
    assert MarkerAt(path, 0);
    SegmentRun(path, 3, 3 + |segment|);
    assert path[3..3 + |segment|] == segment;
  }

  /** A link without a `/q/` segment but with a non-empty `token`
      parameter gives the parameter, trimmed. */
  lemma LinkQueryToken(input: string, parseUrl: string -> Option<Url>, decode: string -> Option<string>, token: string)
    requires !AllSpace(input)
    requires parseUrl(Trim(input)).Some? && parseUrl(Trim(input)).value.token == Some(token) && token != ""
    requires forall i :: 0 <= i < |parseUrl(Trim(input)).value.pathname| ==> !MarkerAt(parseUrl(Trim(input)).value.pathname, i)
    ensures ExtractQRCodeToken(input, parseUrl, decode) == Trim(token)
  {
    TrimEmptyIffBlank(input);
  }

  /** Text that is no link with a token and has no `/q/` segment, but
      starts with `qrcode:` in any case, gives the rest, trimmed. */
  lemma SchemeToken(input: string, parseUrl: string -> Option<Url>, decode: string -> Option<string>)
    requires parseUrl(Trim(input)).None? || LinkToken(parseUrl(Trim(input)).value, decode).None?
    requires forall i :: 0 <= i < |Trim(input)| ==> !MarkerAt(Trim(input), i)
    requires HasSchemePrefix(Trim(input))
    ensures ExtractQRCodeToken(input, parseUrl, decode) == Trim(Trim(input)[|SchemePrefix|..])
  {
  }

  /** `qrcode: token_1` gives `token_1` when it parses as a link without a
      token (its scheme is `qrcode`) or does not parse at all. */
  lemma SchemeExample(parseUrl: string -> Option<Url>, decode: string -> Option<string>)
    requires parseUrl("qrcode: token_1").None? || LinkToken(parseUrl("qrcode: token_1").value, decode).None?
    ensures ExtractQRCodeToken("qrcode: token_1", parseUrl, decode) == "token_1"
  {
    SchemeExampleText();
    SchemeToken("qrcode: token_1", parseUrl, decode);
  }

  /** `qrcode: token_1` is trimmed, has no `/`, starts with `qrcode:` and
      leaves `token_1` once the rest is trimmed. */
  lemma SchemeExampleText()
    ensures var text := "qrcode: token_1";
            && Trim(text) == text
            && (forall i :: 0 <= i < |text| ==> !MarkerAt(text, i))
            && HasSchemePrefix(text)
            && Trim(text[|SchemePrefix|..]) == "token_1"
  {
    var text := "qrcode: token_1";
    TrimmedEnds(text);
    NoSlash(text);
    assert text[..7] == SchemePrefix;
    assert Lower(SchemePrefix) == SchemePrefix;
    SchemeExampleRest();
  }

  lemma SchemeExampleRest()
    ensures Trim("qrcode: token_1"[7..]) == "token_1"
  {
    var rest := "qrcode: token_1"[7..];
    assert rest == " token_1";
    assert LeadingSpaces(rest) == 1;
    assert rest[1..] == "token_1";
    TrimmedEnds("token_1");
  }

  /** Text without a `/` has no `/q/` segment. */
  lemma NoSlash(s: string)
    requires forall i :: 0 <= i < |s| ==> s[i] != '/'
    ensures forall i :: 0 <= i < |s| ==> !MarkerAt(s, i)
  {
  }

  /** The first `n` characters from `from` on are segment characters and
      the next one is not. */
  lemma SegmentRun(s: string, from: nat, to: nat)
    requires from <= to <= |s|
    requires forall k :: from <= k < to ==> SegmentChar(s[k])
    requires to == |s| || !SegmentChar(s[to])
    ensures SegmentLength(s, from) == to - from
    decreases |s| - from
  {
    if from < to {
      SegmentRun(s, from + 1, to);
    }
  }
}
