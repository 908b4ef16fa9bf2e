/** The pure string helpers of the publish form transform: the "extension" of
    a file URL, the creation timestamp without milliseconds, and tag
    normalisation. */
module Normalize {
  import opened Common

  // ---------------------------------------------------------------------
  // getUrlFileExtension: the last piece of the URL split at every '.'

  /** The text after the last '.' of `url`, or all of `url` when it has no '.'. */
  function UrlFileExtension(url: string): (ext: string)
    ensures '.' !in ext
    ensures |ext| <= |url| && ext == url[|url| - |ext|..]
    ensures |ext| < |url| ==> url[|url| - |ext| - 1] == '.'
  {
    if |url| == 0 || url[|url| - 1] == '.' then ""
    else
      var init := url[..|url| - 1];
      var rest := UrlFileExtension(init);
      assert init[|init| - |rest|..] + [url[|url| - 1]] == url[|url| - |rest| - 1..];
      rest + [url[|url| - 1]]
  }

  /** Splitting at the last dot and taking the tail recovers the tail. */
  lemma {:induction false} UrlFileExtensionOfDotted(stem: string, ext: string)
    requires '.' !in ext
    ensures UrlFileExtension(stem + "." + ext) == ext
  {
    if ext != "" {
      var init := ext[..|ext| - 1];
      assert (stem + "." + ext)[..|stem + "." + ext| - 1] == stem + "." + init;
      assert ext[|ext| - 1] in ext;
      UrlFileExtensionOfDotted(stem, init);
      assert ext == init + [ext[|ext| - 1]];
    }
  }

  /** A URL without any dot is its own "extension". */
  lemma {:induction false} UrlFileExtensionWithoutDot(url: string)
    requires '.' !in url
    ensures UrlFileExtension(url) == url
  {
    if url != "" {
      var init := url[..|url| - 1];
      assert url[|url| - 1] in url;
      UrlFileExtensionWithoutDot(init);
      assert url == init + [url[|url| - 1]];
    }
  }

  /** The split is by '.', not by path segment: a URL whose last path segment
      has no dot yields the tail after the host name's last dot. */
  lemma UrlFileExtensionOfDotlessPath()
    ensures UrlFileExtension("https://example.com/run") == "com/run"
    ensures UrlFileExtension("https://example.com/algo.py") == "py"
  {
    assert "https://example" + "." + "com/run" == "https://example.com/run";
    UrlFileExtensionOfDotted("https://example", "com/run");
    assert "https://example.com/algo" + "." + "py" == "https://example.com/algo.py";
    UrlFileExtensionOfDotted("https://example.com/algo", "py");
  }

  // ---------------------------------------------------------------------
  // dateToStringNoMS: the ISO rendering with its three-digit millisecond
  // field and the dot before it removed

  /** A calendar instant in UTC, as `Date.prototype.toISOString` renders it. */
  datatype DateTime = DateTime(year: nat, month: nat, day: nat, hour: nat, minute: nat, second: nat, millisecond: nat) {
    /** The ranges a JavaScript `Date` produces, for years rendered with four digits. */
    predicate Valid() {
      year <= 9999 && 1 <= month <= 12 && 1 <= day <= 31
      && hour <= 23 && minute <= 59 && second <= 59 && millisecond <= 999
    }
  }

  predicate IsDigit(c: char) {
    '0' <= c <= '9'
  }

  function Pow10(k: nat): (p: nat)
    ensures p >= 1
  {
    if k == 0 then 1 else 10 * Pow10(k - 1)
  }

  function DigitChar(d: nat): (c: char)
    requires d < 10
    ensures IsDigit(c)
  {
    ('0' as int + d) as char
  }

  /** `n` in decimal, left-padded with zeros to `width` digits. */
  function Pad(n: nat, width: nat): (s: string)
    requires n < Pow10(width)
    ensures |s| == width
    ensures forall i :: 0 <= i < |s| ==> IsDigit(s[i])
  {
    if width == 0 then ""
    else Pad(n / 10, width - 1) + [DigitChar(n % 10)]
  }

  /** `YYYY-MM-DDTHH:mm:ss`, the part of the ISO rendering before the fraction. */
  function IsoPrefix(t: DateTime): (p: string)
    requires t.Valid()
    ensures |p| == 19
    ensures '.' !in p
  {
    var p := Pad(t.year, 4) + "-" + Pad(t.month, 2) + "-" + Pad(t.day, 2) + "T"
      + Pad(t.hour, 2) + ":" + Pad(t.minute, 2) + ":" + Pad(t.second, 2);
    assert forall i :: 0 <= i < |p| ==> IsDigit(p[i]) || p[i] in "-T:";
    p
  }

  /** `Date.prototype.toISOString`: `YYYY-MM-DDTHH:mm:ss.sssZ`. */
  function IsoString(t: DateTime): (s: string)
    requires t.Valid()
  {
    IsoPrefix(t) + "." + Pad(t.millisecond, 3) + "Z"
  }

  /** The same rendering with no sub-second component: `YYYY-MM-DDTHH:mm:ssZ`. */
  function IsoStringNoMillis(t: DateTime): (s: string)
    requires t.Valid()
  {
    IsoPrefix(t) + "Z"
  }

  /** A match of `/\.[0-9]{3}Z/` starts at index `i` of `s`. */
  predicate MillisAt(s: string, i: nat) {
    i + 5 <= |s| && s[i] == '.' && IsDigit(s[i + 1]) && IsDigit(s[i + 2]) && IsDigit(s[i + 3]) && s[i + 4] == 'Z'
  }

  /** The leftmost match of `/\.[0-9]{3}Z/` at or after `from`. */
  function FindMillis(s: string, from: nat): (r: Option<nat>)
    requires from <= |s|
    ensures r.Some? ==> from <= r.value && MillisAt(s, r.value)
    ensures r.Some? ==> forall j :: from <= j < r.value ==> !MillisAt(s, j)
    ensures r.None? ==> forall j :: from <= j < |s| ==> !MillisAt(s, j)
    decreases |s| - from
  {
    if from == |s| then None
    else if MillisAt(s, from) then Some(from)
    else FindMillis(s, from + 1)
  }

  /** The first occurrence of a dot, three digits and "Z", if any, becomes "Z". */
  function DateToStringNoMS(iso: string): (r: string)
    ensures (forall j :: 0 <= j < |iso| ==> !MillisAt(iso, j)) ==> r == iso
    ensures forall i: nat ::
              MillisAt(iso, i) && (forall j :: 0 <= j < i ==> !MillisAt(iso, j))
              ==> r == iso[..i] + "Z" + iso[i + 5..]
  {
    match FindMillis(iso, 0)
    case None => iso
    case Some(i) => iso[..i] + "Z" + iso[i + 5..]
  }

  /** The creation timestamp: the ISO rendering of `t` with its milliseconds
      dropped, and no '.' left in it. */
  lemma DateToStringNoMSDropsMillis(t: DateTime)
    requires t.Valid()
    ensures DateToStringNoMS(IsoString(t)) == IsoStringNoMillis(t)
    ensures '.' !in DateToStringNoMS(IsoString(t))
  {
    var p := IsoPrefix(t);
    var s := IsoString(t);
    assert |s| == 24;
    assert MillisAt(s, 19);
    forall j | 0 <= j < 19
      ensures !MillisAt(s, j)
    {
      assert s[j] == p[j];
      assert p[j] in p;
    }
    assert s[..19] == p;
    assert s[24..] == [];
    assert DateToStringNoMS(s) == p + "Z";
    assert '.' !in p + "Z";
  }

  // ---------------------------------------------------------------------
  // transformTags: each tag slugified, then lower-cased

  /** Each tag slugified then lower-cased, in input order; `undefined` stays `undefined`. */
  function TransformTags(slugify: string -> string, tags: Option<seq<string>>): (r: Option<seq<string>>)
    ensures r.None? <==> tags.None?
    ensures r.Some? ==> |r.value| == |tags.value|
    ensures r.Some? ==> forall i :: 0 <= i < |r.value| ==> r.value[i] == ToLower(slugify(tags.value[i]))
  {
    match tags
    case None => None
    case Some(ts) => Some(seq(|ts|, i requires 0 <= i < |ts| => ToLower(slugify(ts[i]))))
  }

  /** Every normalised tag is free of upper-case letters. */
  lemma TransformedTagsAreLowerCase(slugify: string -> string, tags: Option<seq<string>>)
    ensures var r := TransformTags(slugify, tags);
      r.Some? ==> forall i :: 0 <= i < |r.value| ==> IsLowerCase(r.value[i])
  {
    var r := TransformTags(slugify, tags);
    if r.Some? {
      forall i | 0 <= i < |r.value|
        ensures IsLowerCase(r.value[i])
      {
        ToLowerIsLowerCase(slugify(tags.value[i]));
      }
    }
  }

  /** `slugify` leaves its own lower-cased output alone. */
  ghost predicate SlugStable(slugify: string -> string) {
    forall t :: slugify(ToLower(slugify(t))) == ToLower(slugify(t))
  }

  /** Normalising an already normalised tag list changes nothing, provided
      `slugify` leaves lower-cased slugs alone. */
  lemma TransformTagsIdempotent(slugify: string -> string, tags: Option<seq<string>>)
    requires SlugStable(slugify)
    ensures TransformTags(slugify, TransformTags(slugify, tags)) == TransformTags(slugify, tags)
  {
    var once := TransformTags(slugify, tags);
    var twice := TransformTags(slugify, once);
    if tags.Some? {
      forall i | 0 <= i < |tags.value|
        ensures twice.value[i] == once.value[i]
      {
        assert once.value[i] == ToLower(slugify(tags.value[i]));
        var u := ToLower(slugify(tags.value[i]));
        assert slugify(u) == u;
        ToLowerIdempotent(slugify(tags.value[i]));
      }
      assert twice.value == once.value;
    }
  }
}
