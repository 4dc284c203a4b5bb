/** The social-media URL classifier of the DreamPulse wizard
    (`detectPlatform` in components/dreampulse/DreamPulseWizard.tsx): the
    platform is read off the lower-cased URL, the handle off the URL as
    typed. */
module Platform {
  import opened Base
  import opened Strings

  datatype Kind = YouTube | Instagram | Twitter | TikTok | Unknown

  /** The platform and the handle; `None` stands for both `null` and
      `undefined`. */
  datatype Detected = Detected(platform: Kind, username: Option<string>)

  /** `s.split(sep)[1]` for a non-empty separator: the text between the
      first and the second occurrence of `sep`, or `undefined` when `sep`
      does not occur. */
  function SecondPiece(s: string, sep: string): (r: Option<string>)
    requires |sep| > 0
    ensures r.None? <==> !Contains(s, sep)
  {
    IndexOfFindsContained(s, sep);
    match IndexOf(s, sep)
    case None => None
    case Some(i) =>
      var rest := s[i + |sep|..];
      match IndexOf(rest, sep)
      case None => Some(rest)
      case Some(j) => Some(rest[..j])
  }

  /** `.split('/')[0]?.split('?')[0]`: the piece up to the first '/' or '?'. */
  function Handle(piece: string): (h: string)
    ensures '/' !in h && '?' !in h
    ensures |h| <= |piece| && h == piece[..|h|]
  {
    var first := Split(piece, '/')[0];
    var h := Split(first, '?')[0];
    SplitHead(piece, '/');
    SplitHead(first, '?');
    assert forall i :: 0 <= i < |h| ==> h[i] == first[i];
    h
  }

  /** `url.split(sep)[1]?.split('/')[0]?.split('?')[0]`. */
  function UsernameAfter(url: string, sep: string): (u: Option<string>)
    requires |sep| > 0
    ensures u.None? <==> !Contains(url, sep)
    ensures u.Some? ==> '/' !in u.value && '?' !in u.value
  {
    match SecondPiece(url, sep)
    case None => None
    case Some(p) => Some(Handle(p))
  }

  predicate IsYouTube(lower: string) {
    Contains(lower, "youtube.com") || Contains(lower, "youtu.be")
  }

  predicate IsInstagram(lower: string) {
    Contains(lower, "instagram.com")
  }

  predicate IsTwitter(lower: string) {
    Contains(lower, "twitter.com") || Contains(lower, "x.com")
  }

  predicate IsTikTok(lower: string) {
    Contains(lower, "tiktok.com")
  }

  /** `detectPlatform`. */
  function DetectPlatform(url: string): (d: Detected)
    ensures var lower := Lower(url);
            && (d.platform == YouTube <==> IsYouTube(lower))
            && (d.platform == Instagram <==> !IsYouTube(lower) && IsInstagram(lower))
            && (d.platform == Twitter <==> !IsYouTube(lower) && !IsInstagram(lower) && IsTwitter(lower))
            && (d.platform == TikTok <==> !IsYouTube(lower) && !IsInstagram(lower) && !IsTwitter(lower)
                                          && IsTikTok(lower))
    ensures d.username.Some? ==> '/' !in d.username.value && '?' !in d.username.value
    ensures d.platform == Unknown ==> d.username.None?
    ensures d.platform == TikTok && !Contains(Lower(url), "/@") ==> d.username.None?
  {
    var lower := Lower(url);
    if IsYouTube(lower) then
      Detected(YouTube,
        if Contains(lower, "/@") then UsernameAfter(url, "/@")
        else if Contains(lower, "/c/") then UsernameAfter(url, "/c/")
        else if Contains(lower, "/channel/") then UsernameAfter(url, "/channel/")
        else None)
    else if IsInstagram(lower) then Detected(Instagram, UsernameAfter(url, "instagram.com/"))
    else if IsTwitter(lower) then Detected(Twitter, UsernameAfter(url, ".com/"))
    else if IsTikTok(lower) then
      Detected(TikTok, if Contains(lower, "/@") then UsernameAfter(url, "/@") else None)
    else Detected(Unknown, None)
  }

  lemma LowerCharIdempotent(c: char)
    ensures LowerChar(LowerChar(c)) == LowerChar(c)
  {
  }

  lemma LowerIdempotent(s: string)
    ensures Lower(Lower(s)) == Lower(s)
  {
    forall i | 0 <= i < |s| ensures Lower(Lower(s))[i] == Lower(s)[i] {
      LowerCharIdempotent(s[i]);
    }
  }

  /** The platform does not depend on letter case. */
  lemma PlatformIgnoresCase(url: string)
    ensures DetectPlatform(Lower(url)).platform == DetectPlatform(url).platform
  {
    LowerIdempotent(url);
  }

  /** In a URL `prefix + "/@" + name + rest`, where the prefix has no '@',
      the name has no '/' or '?', and the rest is empty or starts with '/'
      or '?', the handle read after "/@" is exactly the name. */
  lemma HandleAfterAt(prefix: string, name: string, rest: string)
    requires '@' !in prefix && '/' !in name && '?' !in name
    requires rest == "" || rest[0] == '/' || rest[0] == '?'
    ensures UsernameAfter(prefix + "/@" + name + rest, "/@") == Some(name)
  {
    var url := prefix + "/@" + name + rest;
    FirstAtAfterPrefix(prefix, name + rest);
    assert url == prefix + "/@" + (name + rest);
    assert url[|prefix| + 2..] == name + rest;
    var k := CutAfterName(name, rest);
    assert SecondPiece(url, "/@") == Some(name + rest[..k]);
    HandleOfName(name, rest[..k]);
  }

  /** With no '@' before it, the first "/@" is the one after the prefix. */
  lemma FirstAtAfterPrefix(prefix: string, after: string)
    requires '@' !in prefix
    ensures IndexOf(prefix + "/@" + after, "/@") == Some(|prefix|)
  {
    var url := prefix + "/@" + after;
    var n := |prefix|;
    assert OccursAt(url, "/@", n) by {
      assert url[n..n + 2] == "/@";
    }
    forall j | 0 <= j < n ensures !OccursAt(url, "/@", j) {
      assert url[j + 1] == (prefix + "/@")[j + 1];
      assert url[j..j + 2][1] == url[j + 1];
    }
  }

  /** Where the piece after "/@" is cut: not inside a name free of '/'. The
      piece is the name followed by the first `k` characters of the rest. */
  lemma CutAfterName(name: string, rest: string) returns (k: nat)
    requires '/' !in name
    ensures k <= |rest|
    ensures (match IndexOf(name + rest, "/@")
             case None => name + rest
             case Some(j) => (name + rest)[..j]) == name + rest[..k]
  {
    var after := name + rest;
    match IndexOf(after, "/@") {
      case None =>
        k := |rest|;
        assert rest[..k] == rest;
      case Some(j) =>
        assert after[j] == '/' by {
          assert after[j..j + 2] == "/@";
        }
        assert j >= |name| by {
          assert forall i :: 0 <= i < |name| ==> after[i] == name[i];
        }
        k := j - |name|;
        assert after[..j] == name + rest[..k];
    }
  }

  /** The handle of a name followed by '/'- or '?'-led text is the name. */
  lemma HandleOfName(name: string, tail: string)
    requires '/' !in name && '?' !in name
    requires tail == "" || tail[0] == '/' || tail[0] == '?'
    ensures Handle(name + tail) == name
  {
    var first := Split(name + tail, '/')[0];
    SplitHeadCovers(name, tail, '/');
    SplitHead(name + tail, '/');
    var more := first[|name|..];
    assert first == name + more by {
      assert forall i :: 0 <= i < |name| ==> first[i] == (name + tail)[i] == name[i];
    }
    assert |more| > 0 ==> more[0] == first[|name|] == tail[0] && tail[0] != '/';
    SplitHeadOf(name, more, '?');
  }

  /** A YouTube channel URL of the "/@handle" form yields its handle. */
  lemma YouTubeHandle(prefix: string, name: string, rest: string)
    requires '@' !in prefix && '/' !in name && '?' !in name
    requires rest == "" || rest[0] == '/' || rest[0] == '?'
    requires IsYouTube(Lower(prefix + "/@" + name + rest))
    ensures DetectPlatform(prefix + "/@" + name + rest) == Detected(YouTube, Some(name))
  {
    var url := prefix + "/@" + name + rest;
    HandleAfterAt(prefix, name, rest);
    assert Contains(url, "/@");
    LowerKeepsAt(url);
  }

  /** '/' and '@' survive lower-casing, so "/@" is found in either form. */
  lemma LowerKeepsAt(url: string)
    requires Contains(url, "/@")
    ensures Contains(Lower(url), "/@")
  {
    var i :| 0 <= i <= |url| && OccursAt(url, "/@", i);
    assert url[i] == '/' && url[i + 1] == '@' by {
      assert url[i..i + 2] == "/@";
    }
    assert Lower(url)[i..i + 2] == "/@";
    assert OccursAt(Lower(url), "/@", i);
  }

  /** A TikTok URL of the "/@handle" form yields its handle. */
  lemma TikTokHandle(prefix: string, name: string, rest: string)
    requires '@' !in prefix && '/' !in name && '?' !in name
    requires rest == "" || rest[0] == '/' || rest[0] == '?'
    requires var lower := Lower(prefix + "/@" + name + rest);
             !IsYouTube(lower) && !IsInstagram(lower) && !IsTwitter(lower) && IsTikTok(lower)
    ensures DetectPlatform(prefix + "/@" + name + rest) == Detected(TikTok, Some(name))
  {
    var url := prefix + "/@" + name + rest;
    HandleAfterAt(prefix, name, rest);
    assert Contains(url, "/@");
    LowerKeepsAt(url);
  }
}
