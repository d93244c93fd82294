/**
  Shared definitions: optional values, PHP string truthiness, the recorded
  output of a request, the host site configuration, and the string helpers
  and library stand-ins the components use.
 */
module Common {

  datatype Option<T> = None | Some(value: T)

  /** PHP's truthiness of a string: `""` and `"0"` are falsy, all else truthy. */
  predicate Truthy(s: string) {
    s != "" && s != "0"
  }

  /**
    What a request handler sends: a header line, an included static asset,
    echoed text, the end of the request (`exit` / `wp_die`), or a fatal
    error that stops the script.
   */
  datatype Emit = Header(line: string) | Include(asset: string) | Echo(text: string) | Exit | Fatal

  /**
    The host installation, as relative paths: where the site and the home
    page live (`""` for a root install, `"/blog"` for a sub-directory), and
    the upload directory on disk and as a URL.
   */
  datatype Site = Site(sitePath: string, homePath: string, uploadBaseDir: string, uploadBaseUrl: string)

  /** `site_url(path, 'relative')`. */
  function SiteUrl(site: Site, path: string): string {
    site.sitePath + path
  }

  /** `home_url(path, 'relative')`. */
  function HomeUrl(site: Site, path: string): string {
    site.homePath + path
  }

  /** `admin_url(path, 'relative')`. */
  function AdminUrl(site: Site, path: string): string {
    site.sitePath + "/wp-admin/" + path
  }

  /** `substr($s, strlen($p))` guarded by "starts with `$p`". */
  function StripPrefix(s: string, p: string): (r: string)
    ensures p <= s ==> p + r == s
    ensures !(p <= s) ==> r == s
  {
    if p <= s then s[|p|..] else s
  }

  /** PHP `ltrim($s, $chars)`: drop leading characters that belong to the set. */
  function LTrimChars(s: string, chars: set<char>): (r: string)
    ensures |r| <= |s| && r == s[|s| - |r|..]
    ensures r == [] || r[0] !in chars
    ensures forall i :: 0 <= i < |s| - |r| ==> s[i] in chars
  {
    if s != [] && s[0] in chars then LTrimChars(s[1..], chars) else s
  }

  /**
    `r` is what `ltrim` leaves of `s`: a suffix of `s` that does not start
    with a character of `chars`, after a removed stretch made only of them.
   */
  predicate LTrimmed(s: string, r: string, chars: set<char>) {
    && |r| <= |s| && r == s[|s| - |r|..]
    && (r == [] || r[0] !in chars)
    && forall i :: 0 <= i < |s| - |r| ==> s[i] in chars
  }

  /** PHP `rtrim($s, $chars)`: drop trailing characters that belong to the set. */
  function RTrimChars(s: string, chars: set<char>): (r: string)
    ensures r <= s
    ensures r == [] || r[|r| - 1] !in chars
    ensures forall i :: |r| <= i < |s| ==> s[i] in chars
  {
    if s != [] && s[|s| - 1] in chars then RTrimChars(s[..|s| - 1], chars) else s
  }

  /** WordPress `trailingslashit`: strip trailing slashes and backslashes, add one slash. */
  function TrailingSlashIt(s: string): (r: string)
    ensures |r| > 0 && r[|r| - 1] == '/'
    ensures |r| < 2 || r[|r| - 2] !in {'/', '\\'}
    ensures r[..|r| - 1] <= s
    ensures forall i :: |r| - 1 <= i < |s| ==> s[i] in {'/', '\\'}
  {
    RTrimChars(s, {'/', '\\'}) + "/"
  }

  /** The characters of a string, as a set (PHP's character-list argument). */
  function CharSet(s: string): set<char> {
    set i | 0 <= i < |s| :: s[i]
  }

  /** True iff `needle` occurs in `s` starting at position `i`. */
  predicate OccursAt(s: string, needle: string, i: nat) {
    i + |needle| <= |s| && s[i..i + |needle|] == needle
  }

  /**
    PHP `str_replace($needle, $rep, $s)`: scan left to right and replace
    every non-overlapping occurrence; an empty needle changes nothing.
   */
  function ReplaceAll(s: string, needle: string, rep: string): string
    decreases |s|
  {
    if needle == [] || |s| < |needle| then s
    else if s[..|needle|] == needle then rep + ReplaceAll(s[|needle|..], needle, rep)
    else [s[0]] + ReplaceAll(s[1..], needle, rep)
  }

  /** A text without the needle is left as it is. */
  lemma {:induction false} ReplaceAllAbsent(s: string, needle: string, rep: string)
    requires forall i: nat :: !OccursAt(s, needle, i)
    ensures ReplaceAll(s, needle, rep) == s
  {
    if needle == [] || |s| < |needle| {
    } else {
      assert !OccursAt(s, needle, 0);
      assert s[0..|needle|] == s[..|needle|];
      forall i: nat ensures !OccursAt(s[1..], needle, i) {
        assert !OccursAt(s, needle, i + 1);
        if i + |needle| <= |s[1..]| {
          assert s[1..][i..i + |needle|] == s[i + 1..i + 1 + |needle|];
        }
      }
      ReplaceAllAbsent(s[1..], needle, rep);
    }
  }

  /**
    The first occurrence of the needle, after a stretch where none starts,
    is replaced and the scan resumes after it.
   */
  lemma {:induction false} ReplaceAllFirst(a: string, needle: string, b: string, rep: string)
    requires needle != []
    requires forall i: nat :: i < |a| ==> !OccursAt(a + needle + b, needle, i)
    ensures ReplaceAll(a + needle + b, needle, rep) == a + rep + ReplaceAll(b, needle, rep)
  {
    var s := a + needle + b;
    if a == [] {
      assert s == needle + b;
      assert s[..|needle|] == needle && s[|needle|..] == b;
    } else {
      var s' := a[1..] + needle + b;
      var tail := ReplaceAll(b, needle, rep);
      assert a == [a[0]] + a[1..];
      assert s == [a[0]] + s';
      assert s[1..] == s';
      assert !OccursAt(s, needle, 0);
      ReplaceAllSkip(s, needle, rep);
      forall i: nat | i < |a[1..]| ensures !OccursAt(s', needle, i) {
        assert !OccursAt(s, needle, i + 1);
        OccursAtTail(s, needle, i);
      }
      ReplaceAllFirst(a[1..], needle, b, rep);
      assert ReplaceAll(s, needle, rep) == [a[0]] + (a[1..] + rep + tail);
    }
  }

  /** An occurrence in the tail is an occurrence one position later in the whole. */
  lemma OccursAtTail(s: string, needle: string, i: nat)
    requires s != []
    ensures OccursAt(s[1..], needle, i) <==> OccursAt(s, needle, i + 1)
  {
    if i + |needle| <= |s[1..]| {
      assert s[1..][i..i + |needle|] == s[i + 1..i + 1 + |needle|];
    }
  }

  /** Where no needle starts, the first character is copied and the scan moves on. */
  lemma ReplaceAllSkip(s: string, needle: string, rep: string)
    requires needle != [] && |needle| <= |s| && !OccursAt(s, needle, 0)
    ensures ReplaceAll(s, needle, rep) == [s[0]] + ReplaceAll(s[1..], needle, rep)
  {
    assert s[0..|needle|] == s[..|needle|];
  }

  /** Decimal digits of a natural number. */
  function NatToString(n: nat): (r: string)
    ensures |r| > 0
    ensures forall i :: 0 <= i < |r| ==> '0' <= r[i] <= '9'
  {
    if n < 10 then [(48 + n) as char] else NatToString(n / 10) + [(48 + n % 10) as char]
  }

  /** Distinct numbers have distinct decimal forms. */
  lemma {:induction false} NatToStringInjective(a: nat, b: nat)
    ensures NatToString(a) == NatToString(b) ==> a == b
  {
    if NatToString(a) == NatToString(b) {
      var s := NatToString(a);
      if a < 10 && b < 10 {
        assert s[0] == (48 + a) as char && s[0] == (48 + b) as char;
      } else if a >= 10 && b >= 10 {
        var pa, pb := NatToString(a / 10), NatToString(b / 10);
        assert s == pa + [(48 + a % 10) as char] && s == pb + [(48 + b % 10) as char];
        assert pa == s[..|s| - 1] && pb == s[..|s| - 1];
        NatToStringInjective(a / 10, b / 10);
        assert s[|s| - 1] == (48 + a % 10) as char && s[|s| - 1] == (48 + b % 10) as char;
      }
    }
  }

  /** Signed decimal rendering of an integer. */
  function IntToString(t: int): string {
    if t < 0 then "-" + NatToString(-t) else NatToString(t)
  }

  /** Distinct integers have distinct renderings: a digit never starts a negative one. */
  lemma IntToStringInjective(a: int, b: int)
    ensures IntToString(a) == IntToString(b) ==> a == b
  {
    if IntToString(a) == IntToString(b) {
      assert a < 0 ==> IntToString(a)[0] == '-';
      assert b < 0 ==> IntToString(b)[0] == '-';
      if a < 0 && b < 0 {
        assert NatToString(-a) == IntToString(a)[1..] && NatToString(-b) == IntToString(b)[1..];
        NatToStringInjective(-a, -b);
      } else if a >= 0 && b >= 0 {
        NatToStringInjective(a, b);
      }
    }
  }

  /**
    Stand-in for `gmdate('D, d M Y H:i:s', t) . ' GMT'`: a rendering of the
    timestamp, to the second.
   */
  function HttpDate(t: int): string {
    IntToString(t) + " GMT"
  }

  /** A date header names one timestamp: distinct seconds give distinct dates. */
  lemma HttpDateInjective(a: int, b: int)
    ensures HttpDate(a) == HttpDate(b) ==> a == b
  {
    if HttpDate(a) == HttpDate(b) {
      var n := |HttpDate(a)| - |" GMT"|;
      assert IntToString(a) == HttpDate(a)[..n] && IntToString(b) == HttpDate(b)[..n];
      IntToStringInjective(a, b);
    }
  }

  /** Stand-in for the RFC 1321 digest `md5`: a tag that keeps its input. */
  function Md5(s: string): string {
    "md5:" + s
  }
}
