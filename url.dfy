/** Percent-encoding as the login redirect uses it (Python's
    `urllib.parse.quote` with its default `safe="/"`, and `unquote`), the
    query-string parsing that fills Streamlit's `st.query_params`
    (`parse_qs` with blank values kept, the last value of a repeated name
    winning), and the redirect query that `verify_login` builds. Percent
    escapes and the alphabet of a token follow section 2.1 of RFC 3986 and
    section 7.1 of RFC 7515. */
module Url {
  import opened Common

  predicate IsAlpha(c: char) { 'A' <= c <= 'Z' || 'a' <= c <= 'z' }

  predicate IsDigit(c: char) { '0' <= c <= '9' }

  predicate IsHex(c: char) { IsDigit(c) || 'A' <= c <= 'F' || 'a' <= c <= 'f' }

  /** The characters `quote` never escapes: letters, digits, `_.-~`, and the
      default safe character `/`. */
  predicate QuoteSafe(c: char)
  {
    IsAlpha(c) || IsDigit(c) || c == '_' || c == '.' || c == '-' || c == '~' || c == '/'
  }

  predicate IsAscii(s: string)
  {
    forall i :: 0 <= i < |s| ==> s[i] < '\U{80}'
  }

  /** The upper-case hex digit of a value below 16. */
  function HexDigit(k: int): (c: char)
    requires 0 <= k < 16
    ensures IsHex(c) && QuoteSafe(c) && HexValue(c) == k
  {
    if k < 10 then ('0' as int + k) as char else ('A' as int + k - 10) as char
  }

  function HexValue(c: char): (v: int)
    requires IsHex(c)
    ensures 0 <= v < 16
  {
    if IsDigit(c) then c as int - '0' as int
    else if 'A' <= c <= 'F' then c as int - 'A' as int + 10
    else c as int - 'a' as int + 10
  }

  /** The UTF-8 bytes of one character. */
  function Utf8(c: char): (bytes: seq<int>)
    ensures 1 <= |bytes| <= 4
    ensures forall i :: 0 <= i < |bytes| ==> 0 <= bytes[i] < 256
    ensures c < '\U{80}' ==> bytes == [c as int]
  {
    var n := c as int;
    if n < 0x80 then [n]
    else if n < 0x800 then [0xC0 + n / 0x40, 0x80 + n % 0x40]
    else if n < 0x10000 then [0xE0 + n / 0x1000, 0x80 + (n / 0x40) % 0x40, 0x80 + n % 0x40]
    else [0xF0 + n / 0x40000, 0x80 + (n / 0x1000) % 0x40, 0x80 + (n / 0x40) % 0x40, 0x80 + n % 0x40]
  }

  /** `%XY` with upper-case hex digits, for each byte. */
  function Escape(bytes: seq<int>): (r: string)
    requires forall i :: 0 <= i < |bytes| ==> 0 <= bytes[i] < 256
    ensures |r| == 3 * |bytes|
    ensures forall i :: 0 <= i < |r| ==> r[i] == '%' || (IsHex(r[i]) && QuoteSafe(r[i]))
  {
    if bytes == [] then []
    else ['%', HexDigit(bytes[0] / 16), HexDigit(bytes[0] % 16)] + Escape(bytes[1..])
  }

  /** `urllib.parse.quote(s)`. */
  function Quote(s: string): (r: string)
  {
    if s == [] then []
    else (if QuoteSafe(s[0]) then [s[0]] else Escape(Utf8(s[0]))) + Quote(s[1..])
  }

  /** `urllib.parse.unquote(s)`: each `%` followed by two hex digits becomes
      the character with that code; anything else is kept. */
  function Unquote(s: string): string
  {
    if s == [] then []
    else if |s| >= 3 && s[0] == '%' && IsHex(s[1]) && IsHex(s[2])
    then [(16 * HexValue(s[1]) + HexValue(s[2])) as char] + Unquote(s[3..])
    else [s[0]] + Unquote(s[1..])
  }

  function PlusToSpace(s: string): (r: string)
    ensures |r| == |s|
    ensures forall i :: 0 <= i < |s| ==> r[i] == if s[i] == '+' then ' ' else s[i]
  {
    if s == [] then [] else [if s[0] == '+' then ' ' else s[0]] + PlusToSpace(s[1..])
  }

  /** How `parse_qs` decodes a name or a value: `+` is a space, then
      percent escapes are decoded. */
  function UnquotePlus(s: string): string
  {
    Unquote(PlusToSpace(s))
  }

  /** Everything `quote` produces is a safe character or part of an escape:
      no `&`, `=`, `+`, `#` or space survives. */
  lemma {:induction false} QuoteOutputSafe(s: string)
    ensures forall i :: 0 <= i < |Quote(s)| ==> QuoteSafe(Quote(s)[i]) || Quote(s)[i] == '%'
  {
    if s != [] {
      QuoteOutputSafe(s[1..]);
    }
  }

  /** `unquote` passes over a character that does not start an escape. */
  lemma UnquotePlain(c: char, rest: string)
    requires c != '%'
    ensures Unquote([c] + rest) == [c] + Unquote(rest)
  {
    assert ([c] + rest)[1..] == rest;
  }

  /** `unquote` turns the escape of an ASCII code back into its character. */
  lemma UnquoteEscaped(b: int, rest: string)
    requires 0 <= b < 0x80
    ensures Unquote(Escape([b]) + rest) == [b as char] + Unquote(rest)
  {
    var e := Escape([b]);
    assert e == ['%', HexDigit(b / 16), HexDigit(b % 16)];
    assert (e + rest)[3..] == rest;
  }

  /** `unquote` undoes `quote` on ASCII text. */
  lemma {:induction false} UnquoteQuote(s: string)
    requires IsAscii(s)
    ensures Unquote(Quote(s)) == s
  {
    if s != [] {
      var rest := Quote(s[1..]);
      assert IsAscii(s[1..]);
      UnquoteQuote(s[1..]);
      if QuoteSafe(s[0]) {
        UnquotePlain(s[0], rest);
      } else {
        assert Utf8(s[0]) == [s[0] as int];
        UnquoteEscaped(s[0] as int, rest);
      }
      assert [s[0]] + s[1..] == s;
    }
  }

  /** Text without `%` is left alone by `unquote`. */
  lemma {:induction false} UnquoteNoEscape(s: string)
    requires '%' !in s
    ensures Unquote(s) == s
  {
    if s != [] {
      assert '%' !in s[1..];
      UnquoteNoEscape(s[1..]);
    }
  }

  /** Text made only of safe characters is left alone by `quote`. */
  lemma {:induction false} QuoteAllSafe(s: string)
    requires forall i :: 0 <= i < |s| ==> QuoteSafe(s[i])
    ensures Quote(s) == s
  {
    if s != [] {
      QuoteAllSafe(s[1..]);
    }
  }

  /** `parse_qs` decodes what `quote` encoded back to the ASCII original. */
  lemma UnquotePlusQuote(s: string)
    requires IsAscii(s)
    ensures UnquotePlus(Quote(s)) == s
  {
    QuoteOutputSafe(s);
    assert PlusToSpace(Quote(s)) == Quote(s);
    UnquoteQuote(s);
  }

  /** A character of the base64url alphabet (section 5 of RFC 4648). */
  predicate Base64UrlChar(c: char)
  {
    IsAlpha(c) || IsDigit(c) || c == '-' || c == '_'
  }

  /** The text of a JWS compact token (section 7.1 of RFC 7515): three
      base64url segments joined by two dots. */
  predicate CompactJws(s: string)
  {
    && (forall i :: 0 <= i < |s| ==> Base64UrlChar(s[i]) || s[i] == '.')
    && |SplitOn(s, '.')| == 3
  }

  /** `quote` and `unquote` both leave a compact token as it is, and so does
      the query decoding of `parse_qs`. */
  lemma CompactJwsUnchanged(s: string)
    requires CompactJws(s)
    ensures Quote(s) == s && Unquote(s) == s && UnquotePlus(s) == s
  {
    QuoteAllSafe(s);
    UnquoteNoEscape(s);
    assert PlusToSpace(s) == s;
  }

  /** Python's `s.split(sep)`. */
  function SplitOn(s: string, sep: char): (r: seq<string>)
    ensures |r| >= 1
    ensures |r[0]| <= |s| && r[0] == s[..|r[0]|] && sep !in r[0]
    ensures |r| > 1 ==> |r[0]| < |s| && s[|r[0]|] == sep
  {
    if s == [] then [""]
    else if s[0] == sep then [""] + SplitOn(s[1..], sep)
    else var rest := SplitOn(s[1..], sep); [[s[0]] + rest[0]] + rest[1..]
  }

  lemma {:induction false} SplitOnNone(s: string, sep: char)
    requires sep !in s
    ensures SplitOn(s, sep) == [s]
  {
    if s != [] {
      SplitOnNone(s[1..], sep);
      assert [s[0]] + s[1..] == s;
    }
  }

  lemma {:induction false} SplitOnFirst(a: string, sep: char, b: string)
    requires sep !in a
    ensures SplitOn(a + [sep] + b, sep) == [a] + SplitOn(b, sep)
  {
    if a == [] {
      assert a + [sep] + b == [sep] + b;
    } else {
      var whole := a + [sep] + b;
      assert whole[0] == a[0] && a[0] != sep;
      assert whole[1..] == a[1..] + [sep] + b;
      SplitOnFirst(a[1..], sep, b);
      assert [a[0]] + a[1..] == a;
    }
  }

  /** One `name=value` field split at its first `=`; a field without `=` has
      an empty value (blank values are kept). */
  function SplitField(field: string): (string, string)
  {
    var parts := SplitOn(field, '=');
    if |parts| == 1 then (field, "")
    else (parts[0], field[|parts[0]| + 1..])
  }

  lemma SplitFieldAt(name: string, value: string)
    requires '=' !in name
    ensures SplitField(name + "=" + value) == (name, value)
  {
    SplitOnFirst(name, '=', value);
    assert (name + "=" + value)[|name| + 1..] == value;
  }

  /** Adds the decoded fields in order; empty fields are skipped. */
  function AddFields(params: map<string, string>, fields: seq<string>): map<string, string>
    decreases |fields|
  {
    if fields == [] then params
    else if fields[0] == "" then AddFields(params, fields[1..])
    else
      var (name, value) := SplitField(fields[0]);
      AddFields(params[UnquotePlus(name) := UnquotePlus(value)], fields[1..])
  }

  /** The `st.query_params` a query string gives. */
  function ParseQuery(query: string): map<string, string>
  {
    AddFields(map[], SplitOn(query, '&'))
  }

  /** One `name=value` field of a query. */
  function Field(name: string, value: string): string
  {
    name + "=" + value
  }

  /** A query of two `name=value` fields whose parts hold no `&` and whose
      names hold no `=` parses to the two decoded values. */
  lemma ParseTwoFields(n1: string, v1: string, n2: string, v2: string)
    requires '&' !in n1 && '&' !in v1 && '&' !in n2 && '&' !in v2 && '=' !in n1 && '=' !in n2
    requires UnquotePlus(n1) != UnquotePlus(n2)
    ensures ParseQuery(Field(n1, v1) + "&" + Field(n2, v2))
            == map[UnquotePlus(n1) := UnquotePlus(v1), UnquotePlus(n2) := UnquotePlus(v2)]
  {
    var f1, f2 := Field(n1, v1), Field(n2, v2);
    assert '&' !in f1 && '&' !in f2;
    SplitOnFirst(f1, '&', f2);
    SplitOnNone(f2, '&');
    assert SplitOn(f1 + ['&'] + f2, '&') == [f1, f2];
    SplitFieldAt(n1, v1);
    SplitFieldAt(n2, v2);
    assert f1 != "" && f2 != "";
    var m1 := map[][UnquotePlus(n1) := UnquotePlus(v1)];
    assert AddFields(map[], [f1, f2]) == AddFields(m1, [f2]);
    assert [f1, f2][1..] == [f2];
    assert AddFields(m1, [f2]) == AddFields(m1[UnquotePlus(n2) := UnquotePlus(v2)], []);
  }

  /** A text without `+` or `%` is left unchanged by form decoding. */
  lemma UnquotePlusPlain(s: string)
    requires '+' !in s && '%' !in s
    ensures UnquotePlus(s) == s
  {
    var r := PlusToSpace(s);
    assert |r| == |s|;
    forall i | 0 <= i < |s| ensures r[i] == s[i] {
      assert s[i] != '+';
    }
    assert r == s;
    UnquoteNoEscape(s);
  }

  /** The two parameter names of the redirect decode to themselves. */
  lemma SessionQueryNames()
    ensures UnquotePlus("jwt") == "jwt" && UnquotePlus("email") == "email"
  {
    UnquotePlusPlain("jwt");
    UnquotePlusPlain("email");
  }

  /** A redirect query whose token and address parts hold no `&` gives the
      page both parts, decoded. */
  lemma ParseJwtEmail(jwt: string, email: string)
    requires '&' !in jwt && '&' !in email
    ensures ParseQuery(Field("jwt", jwt) + "&" + Field("email", email))
            == map["jwt" := UnquotePlus(jwt), "email" := UnquotePlus(email)]
  {
    assert '&' !in "jwt" && '=' !in "jwt" && '&' !in "email" && '=' !in "email";
    SessionQueryNames();
    ParseTwoFields("jwt", jwt, "email", email);
  }

  /** The query of the redirect `verify_login` sends, as written: the token is
      quoted, the address is not. */
  function SessionQueryAsWritten(jwt: string, email: string): string
  {
    Field("jwt", Quote(jwt)) + "&" + Field("email", email)
  }

  /** The same query with the address quoted as well. */
  function SessionQuery(jwt: string, email: string): string
  {
    Field("jwt", Quote(jwt)) + "&" + Field("email", Quote(email))
  }

  lemma CompactJwsHasNoAmpersand(jwt: string)
    requires CompactJws(jwt)
    ensures '&' !in jwt
  {
    forall i | 0 <= i < |jwt| ensures jwt[i] != '&' { }
  }

  lemma QuotedHasNoAmpersand(s: string)
    ensures '&' !in Quote(s)
  {
    QuoteOutputSafe(s);
    var q := Quote(s);
    forall i | 0 <= i < |q| ensures q[i] != '&' { }
  }

  /** With the address quoted, the page receives the token and the address
      exactly as the backend had them. */
  lemma SessionQueryRoundTrip(jwt: string, email: string)
    requires CompactJws(jwt) && IsAscii(email)
    ensures ParseQuery(SessionQuery(jwt, email)) == map["jwt" := jwt, "email" := email]
  {
    CompactJwsUnchanged(jwt);
    CompactJwsHasNoAmpersand(jwt);
    QuotedHasNoAmpersand(email);
    UnquotePlusQuote(email);
    ParseJwtEmail(jwt, Quote(email));
  }

  /** A single `+` between two texts without one becomes a space. */
  lemma PlusToSpaceOne(a: string, b: string)
    requires '+' !in a && '+' !in b
    ensures PlusToSpace(a + "+" + b) == a + " " + b
  {
    var s, t := a + "+" + b, a + " " + b;
    var r := PlusToSpace(s);
    assert |r| == |t|;
    forall i | 0 <= i < |r| ensures r[i] == t[i] {
      if i < |a| {
        assert s[i] == a[i] == t[i];
      } else if i == |a| {
        assert s[i] == '+' && t[i] == ' ';
      } else {
        assert s[i] == b[i - |a| - 1] == t[i];
      }
    }
  }

  /** `parse_qs` reads the `+` of a plus-address `local+tag` as a space. */
  lemma PlusAddressDecoded(local: string, tag: string)
    requires '+' !in local && '+' !in tag && '%' !in local && '%' !in tag
    ensures UnquotePlus(local + "+" + tag) == local + " " + tag
  {
    PlusToSpaceOne(local, tag);
    var t := local + " " + tag;
    assert '%' !in t by {
      forall i | 0 <= i < |t| ensures t[i] != '%' {
        if i < |local| {
          assert t[i] == local[i];
        } else if |local| < i {
          assert t[i] == tag[i - |local| - 1];
        }
      }
    }
    UnquoteNoEscape(t);
  }

  /** As written, the redirect hands the page a plus-address `local+tag`
      with the `+` turned into a space: the stored address is not the one
      the token was minted for. */
  lemma PlusInEmailIsLost(jwt: string, local: string, tag: string)
    requires CompactJws(jwt)
    requires '+' !in local && '+' !in tag && '%' !in local && '%' !in tag
    requires '&' !in local && '&' !in tag
    ensures var params := ParseQuery(SessionQueryAsWritten(jwt, local + "+" + tag));
      && "email" in params && params["email"] == local + " " + tag
      && params["email"] != local + "+" + tag
  {
    var email := local + "+" + tag;
    CompactJwsUnchanged(jwt);
    CompactJwsHasNoAmpersand(jwt);
    assert '&' !in email by {
      forall i | 0 <= i < |email| ensures email[i] != '&' {
        if i < |local| {
          assert email[i] == local[i];
        } else if |local| < i {
          assert email[i] == tag[i - |local| - 1];
        }
      }
    }
    ParseJwtEmail(jwt, email);
    PlusAddressDecoded(local, tag);
    assert (local + " " + tag)[|local|] == ' ' != email[|local|];
  }

  /** The address `a+b@x.com` reaches the page as `a b@x.com`. */
  lemma PlusAddressExample(jwt: string)
    requires CompactJws(jwt)
    ensures var params := ParseQuery(SessionQueryAsWritten(jwt, "a+b@x.com"));
      "email" in params && params["email"] == "a b@x.com"
  {
    assert "a" + "+" + "b@x.com" == "a+b@x.com";
    assert "a" + " " + "b@x.com" == "a b@x.com";
    assert '+' !in "b@x.com" && '%' !in "b@x.com" && '&' !in "b@x.com";
    PlusInEmailIsLost(jwt, "a", "b@x.com");
  }
}
