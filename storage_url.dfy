/** Object paths and download URLs of the object store.

    An uploaded image lives at `designs/{userId}/{now}.png`. The store hands
    out a download URL of the form `{endpoint}/o/{encoded path}?alt=media`,
    where `endpoint` is the bucket's address and the path is percent-encoded
    so that it contains no `/` and no `?`. Deleting a design recovers the
    path from that URL: the text after the first `/o/` of the URL's path,
    up to the next `/o/` or `?`, percent-decoded. */
module StorageUrl {
  import opened Outcomes
  import opened JsString

  /** `designs/${userId}/${Date.now()}.png` */
  function ImagePath(userId: string, now: nat): (p: string)
    ensures StartsWith(p, "designs/" + userId + "/")
  {
    "designs/" + userId + "/" + Decimal(now) + ".png"
  }

  /** Two uploads of the same user get different paths unless they read
      the same clock value. */
  lemma ImagePathInjective(userId: string, t1: nat, t2: nat)
    requires ImagePath(userId, t1) == ImagePath(userId, t2)
    ensures t1 == t2
  {
    var prefix := "designs/" + userId + "/";
    var p1, p2 := ImagePath(userId, t1), ImagePath(userId, t2);
    assert p1 == prefix + Decimal(t1) + ".png";
    assert p2 == prefix + Decimal(t2) + ".png";
    assert p1[|prefix|..|p1| - 4] == Decimal(t1);
    assert p2[|prefix|..|p2| - 4] == Decimal(t2);
    DecimalInjective(t1, t2);
  }

  /** The path separator the store's download URLs put before the object. */
  predicate SepAt(s: string, i: nat)
  {
    i + 3 <= |s| && s[i] == '/' && s[i + 1] == 'o' && s[i + 2] == '/'
  }

  /** The store's encoding of one path character inside a download URL. */
  function EncodeChar(c: char): string
  {
    if c == '/' then "%2F"
    else if c == '%' then "%25"
    else if c == '?' then "%3F"
    else [c]
  }

  function EncodePath(p: string): (r: string)
    ensures forall i :: 0 <= i < |r| ==> r[i] != '/' && r[i] != '?'
  {
    if p == [] then [] else EncodeChar(p[0]) + EncodePath(p[1..])
  }

  function HexDigit(c: char): Option<nat>
  {
    if '0' <= c <= '9' then Some(c as int - '0' as int)
    else if 'A' <= c <= 'F' then Some(c as int - 'A' as int + 10)
    else if 'a' <= c <= 'f' then Some(c as int - 'a' as int + 10)
    else None
  }

  /** `decodeURIComponent`, restricted to escapes of ASCII characters:
      every `%` must start a two-hex-digit escape below 0x80, otherwise the
      decoding fails (it throws in JavaScript). */
  function DecodeComponent(s: string): (r: Option<string>)
    decreases |s|
  {
    if s == [] then Some([])
    else if s[0] != '%' then
      match DecodeComponent(s[1..])
      case None => None
      case Some(t) => Some([s[0]] + t)
    else if |s| >= 3 && HexDigit(s[1]).Some? && HexDigit(s[2]).Some?
            && HexDigit(s[1]).value * 16 + HexDigit(s[2]).value < 0x80 then
      match DecodeComponent(s[3..])
      case None => None
      case Some(t) => Some([(HexDigit(s[1]).value * 16 + HexDigit(s[2]).value) as char] + t)
    else None
  }

  /** Decoding undoes the store's encoding of every path. */
  lemma {:induction false} DecodeEncode(p: string)
    ensures DecodeComponent(EncodePath(p)) == Some(p)
  {
    if p != [] {
      DecodeEncode(p[1..]);
      var c, rest := p[0], EncodePath(p[1..]);
      var s := EncodeChar(c) + rest;
      assert EncodePath(p) == s;
      assert p == [c] + p[1..];
      if c == '/' || c == '%' || c == '?' {
        assert s[0] == '%' && s[3..] == rest;
        if c == '/' {
          assert s[1] == '2' && s[2] == 'F';
          assert (2 * 16 + 15) as char == '/';
        } else if c == '%' {
          assert s[1] == '2' && s[2] == '5';
          assert (2 * 16 + 5) as char == '%';
        } else {
          assert s[1] == '3' && s[2] == 'F';
          assert (3 * 16 + 15) as char == '?';
        }
      } else {
        assert s[0] == c && s[1..] == rest;
      }
    }
  }

  /** `s.split(c)[0]`: the text before the first `c`. */
  function BeforeFirst(s: string, c: char): (r: string)
  {
    if s == [] || s[0] == c then [] else [s[0]] + BeforeFirst(s[1..], c)
  }

  lemma {:induction false} BeforeFirstSkips(a: string, b: string, c: char)
    requires c !in a
    ensures BeforeFirst(a + b, c) == a + BeforeFirst(b, c)
  {
    if a != [] {
      assert (a + b)[0] == a[0] && (a + b)[1..] == a[1..] + b;
      BeforeFirstSkips(a[1..], b, c);
    } else {
      assert a + b == b;
    }
  }

  /** The index of the first separator at or after `from`. */
  function FindSep(s: string, from: nat): (r: Option<nat>)
    decreases |s| - from
    ensures r.Some? ==> from <= r.value && SepAt(s, r.value)
                        && forall k :: from <= k < r.value ==> !SepAt(s, k)
    ensures r.None? ==> forall k :: from <= k ==> !SepAt(s, k)
  {
    if from + 3 > |s| then None
    else if SepAt(s, from) then Some(from)
    else FindSep(s, from + 1)
  }

  /** `s.split('/o/')[1]`, or None when `s` has no separator (the element
      is `undefined`, and the next call on it throws). */
  function SecondField(s: string): Option<string>
  {
    match FindSep(s, 0)
    case None => None
    case Some(i) =>
      var rest := s[i + 3..];
      match FindSep(rest, 0)
      case None => Some(rest)
      case Some(j) => Some(rest[..j])
  }

  /** The object path `deleteDesign` derives from a design's download URL,
      or None where the derivation throws. The URL's path is the text
      before its query. */
  function StoragePathOf(url: string): Option<string>
  {
    var pathname := BeforeFirst(url, '?');
    match SecondField(pathname)
    case None => None
    case Some(segment) => DecodeComponent(BeforeFirst(segment, '?'))
  }

  /** A bucket address the download URLs can be built on: no query mark in
      it and no separator starting inside it. */
  predicate EndpointOk(endpoint: string)
  {
    && '?' !in endpoint
    && forall i :: 0 <= i < |endpoint| ==> !SepAt(endpoint + "/o/", i)
  }

  /** `getDownloadURL(ref(storage, path))` */
  function DownloadUrl(endpoint: string, path: string): string
  {
    endpoint + "/o/" + EncodePath(path) + "?alt=media"
  }

  /** Deleting recovers, from a download URL, exactly the path it was
      issued for. */
  lemma PathOfDownloadUrl(endpoint: string, path: string)
    requires EndpointOk(endpoint)
    ensures StoragePathOf(DownloadUrl(endpoint, path)) == Some(path)
  {
    var enc := EncodePath(path);
    var head := endpoint + "/o/" + enc;
    assert DownloadUrl(endpoint, path) == head + "?alt=media";
    assert '?' !in head by {
      assert head == endpoint + ("/o/" + enc);
      assert '?' !in "/o/" + enc;
    }
    BeforeFirstSkips(head, "?alt=media", '?');
    assert BeforeFirst("?alt=media", '?') == [];
    assert BeforeFirst(DownloadUrl(endpoint, path), '?') == head;

    assert SepAt(head, |endpoint|);
    forall k | 0 <= k < |endpoint| ensures !SepAt(head, k) {
      assert !SepAt(endpoint + "/o/", k);
      var pre := endpoint + "/o/";
      assert head == pre + enc;
      assert head[k] == pre[k] && head[k + 1] == pre[k + 1] && head[k + 2] == pre[k + 2];
    }
    assert FindSep(head, 0) == Some(|endpoint|);
    assert head[|endpoint| + 3..] == enc;
    assert FindSep(enc, 0) == None;
    assert SecondField(head) == Some(enc);
    BeforeFirstSkips(enc, [], '?');
    assert enc + [] == enc;
    DecodeEncode(path);
  }
}
