/** `ContentTypeTrait`, shared by requests and responses: the raw Content-Type
    line and the JSON test on it. */
module ContentType {
  import opened PhpStrings

  /** Message headers: header name to header line, names compared exactly. */
  type HeaderMap = map<string, string>

  const ContentTypeHeader: string := "Content-Type"
  const Json: string := "application/json"

  /** `contentType()`: the Content-Type line exactly as stored (parameters such as
      `; charset=UTF-8` included), or "" when the header is absent. */
  function ContentTypeOf(headers: HeaderMap): (r: string)
    ensures ContentTypeHeader in headers ==> r == headers[ContentTypeHeader]
    ensures ContentTypeHeader !in headers ==> r == ""
  {
    if ContentTypeHeader in headers then headers[ContentTypeHeader] else ""
  }

  predicate NoNewline(s: string) {
    forall i :: 0 <= i < |s| ==> s[i] != '\n'
  }

  /** The subject a `$`-anchored PCRE pattern must end at: `$` also matches just
      before one final newline. */
  function BeforeFinalNewline(s: string): string {
    if |s| > 0 && s[|s| - 1] == '\n' then s[..|s| - 1] else s
  }

  /** `preg_match('#^application/.+\+json$#i', $ct)`, computed directly: an
      `application/` prefix and a `+json` suffix in any letter case around at
      least one character that is not a newline. */
  predicate MatchesJsonSuffix(ct: string) {
    var t := BeforeFinalNewline(ct);
    |t| >= 18
    && EqualsIgnoreCase(t[..12], "application/")
    && EqualsIgnoreCase(t[|t| - 5..], "+json")
    && NoNewline(t[12..|t| - 5])
  }

  /** One way the pattern can match: `mid` is what `.+` consumes and `nl` what
      `$` lets stand after the match. */
  predicate RegexWitness(ct: string, mid: string, nl: string) {
    && |mid| >= 1
    && NoNewline(mid)
    && (nl == "" || nl == "\n")
    && EqualsIgnoreCase(ct, "application/" + mid + "+json" + nl)
  }

  /** The pattern read as a regular expression: some split of the subject fits it. */
  ghost predicate JsonSuffixRegex(ct: string) {
    exists mid: string, nl: string :: RegexWitness(ct, mid, nl)
  }

  lemma EqualsIgnoreCaseSlices(a: string, b: string, i: int, j: int)
    requires EqualsIgnoreCase(a, b) && 0 <= i <= j <= |a|
    ensures EqualsIgnoreCase(a[i..j], b[i..j])
  {
  }

  /** Every match the direct test finds is a match of the regular expression. */
  lemma DirectMatchIsRegexMatch(ct: string)
    requires MatchesJsonSuffix(ct)
    ensures JsonSuffixRegex(ct)
  {
    var t := BeforeFinalNewline(ct);
    var nl := if |ct| > 0 && ct[|ct| - 1] == '\n' then "\n" else "";
    assert ct == t + nl;
    var mid := t[12..|t| - 5];
    var pattern := "application/" + mid + "+json" + nl;
    assert |pattern| == |ct|;
    forall i | 0 <= i < |ct|
      ensures LowerChar(ct[i]) == LowerChar(pattern[i])
    {
      if i < 12 {
        assert ct[i] == t[..12][i] && pattern[i] == "application/"[i];
      } else if i < |t| - 5 {
        assert ct[i] == mid[i - 12] == pattern[i];
      } else if i < |t| {
        assert ct[i] == t[|t| - 5..][i - (|t| - 5)] && pattern[i] == "+json"[i - (|t| - 5)];
      } else {
        assert ct[i] == '\n' == pattern[i];
      }
    }
    assert RegexWitness(ct, mid, nl);
  }

  /** The four parts of a candidate match, read back by position. */
  lemma PatternParts(mid: string, nl: string)
    ensures var p := "application/" + mid + "+json" + nl;
      var n := |p| - |nl|;
      && p[..12] == "application/" && p[12..n - 5] == mid && p[n - 5..n] == "+json" && p[n..] == nl
  {
  }

  /** A subject that fits the pattern ends in a newline exactly when `$` was
      placed before one, so the anchored part is everything before it. */
  lemma AnchoredPart(ct: string, mid: string, nl: string)
    requires RegexWitness(ct, mid, nl)
    ensures BeforeFinalNewline(ct) == ct[..|ct| - |nl|]
  {
    var p := "application/" + mid + "+json" + nl;
    PatternParts(mid, nl);
    assert LowerChar(ct[|ct| - 1]) == LowerChar(p[|p| - 1]);
    if nl == "" {
      assert p[|p| - 1] == "+json"[4];
    } else {
      assert p[|p| - 1] == nl[0];
    }
  }

  /** Every match of the regular expression is found by the direct test. */
  lemma RegexMatchIsDirectMatch(ct: string, mid: string, nl: string)
    requires RegexWitness(ct, mid, nl)
    ensures MatchesJsonSuffix(ct)
  {
    var p := "application/" + mid + "+json" + nl;
    var n := |p| - |nl|;
    PatternParts(mid, nl);
    AnchoredPart(ct, mid, nl);
    var t := BeforeFinalNewline(ct);
    assert |t| == n && n >= 18;
    EqualsIgnoreCaseSlices(ct, p, 0, 12);
    EqualsIgnoreCaseSlices(ct, p, n - 5, n);
    assert t[..12] == ct[..12];
    assert t[n - 5..] == ct[n - 5..n];
    forall i | 12 <= i < n - 5
      ensures t[i] != '\n'
    {
      assert t[i] == ct[i];
      assert p[i] == mid[i - 12];
      assert LowerChar(ct[i]) == LowerChar(p[i]);
    }
    assert NoNewline(t[12..n - 5]);
  }

  /** The direct test and the regular expression agree on every input. */
  lemma MatchesJsonSuffixIsRegex(ct: string)
    ensures MatchesJsonSuffix(ct) <==> JsonSuffixRegex(ct)
  {
    if MatchesJsonSuffix(ct) {
      DirectMatchIsRegexMatch(ct);
    }
    if JsonSuffixRegex(ct) {
      var mid: string, nl: string :| RegexWitness(ct, mid, nl);
      RegexMatchIsDirectMatch(ct, mid, nl);
    }
  }

  /** `isJson()`: exactly `application/json` (case-sensitive), or any
      `application/<one or more characters>+json` in any letter case. */
  predicate IsJson(ct: string) {
    ct == Json || MatchesJsonSuffix(ct)
  }

  /** The same test stated through the regular expression. */
  lemma IsJsonCharacterised(ct: string)
    ensures IsJson(ct) <==> ct == Json || JsonSuffixRegex(ct)
  {
    MatchesJsonSuffixIsRegex(ct);
  }

  /** Every `application/<subtype>+json` with a non-empty subtype free of
      newlines is JSON. */
  lemma PlusJsonTypesAreJson(subtype: string)
    requires |subtype| >= 1 && NoNewline(subtype)
    ensures IsJson("application/" + subtype + "+json")
  {
    var ct := "application/" + subtype + "+json";
    assert ct + "" == ct;
    RegexMatchIsDirectMatch(ct, subtype, "");
  }

  /** The `+json` test ignores ASCII letter case. */
  lemma JsonSuffixIgnoresCase(a: string, b: string)
    requires EqualsIgnoreCase(a, b)
    ensures MatchesJsonSuffix(a) <==> MatchesJsonSuffix(b)
  {
    if MatchesJsonSuffix(a) {
      DirectMatchIsRegexMatch(a);
      var mid: string, nl: string :| RegexWitness(a, mid, nl);
      RegexMatchIsDirectMatch(b, mid, nl);
    }
    if MatchesJsonSuffix(b) {
      DirectMatchIsRegexMatch(b);
      var mid: string, nl: string :| RegexWitness(b, mid, nl);
      RegexMatchIsDirectMatch(a, mid, nl);
    }
  }

  /** Vendor and registered `+json` types are JSON: JSON:API, jCal (RFC 7265)
      and Collection+JSON. */
  lemma JsonApiIsJson()
    ensures IsJson("application/vnd.api+json")
  {
    assert "application/" + "vnd.api" + "+json" == "application/vnd.api+json";
    PlusJsonTypesAreJson("vnd.api");
  }

  lemma CalendarJsonIsJson()
    ensures IsJson("application/calendar+json")
  {
    assert "application/" + "calendar" + "+json" == "application/calendar+json";
    PlusJsonTypesAreJson("calendar");
  }

  lemma CollectionJsonIsJson()
    ensures IsJson("application/vnd.collection+json")
  {
    assert "application/" + "vnd.collection" + "+json" == "application/vnd.collection+json";
    PlusJsonTypesAreJson("vnd.collection");
  }

  /** The same type written in any letter case is JSON too: upper-casing an
      `application/<subtype>+json` keeps it JSON. */
  lemma UpperCasedPlusJsonIsJson(subtype: string)
    requires |subtype| >= 1 && NoNewline(subtype)
    ensures IsJson(ToUpper("application/" + subtype + "+json"))
  {
    var ct := "application/" + subtype + "+json";
    PlusJsonTypesAreJson(subtype);
    assert MatchesJsonSuffix(ct) by {
      assert ct != Json by {
        assert |ct| >= 18 && |Json| == 16;
      }
    }
    JsonSuffixIgnoresCase(ToUpper(ct), ct);
  }

  /** Text types, an absent header, an empty subtype, a `+json` that is not the
      final suffix, a parameter after the type, and the upper-case spelling of the
      plain JSON type (it has no `+`) are all not JSON. */
  lemma OtherTypesAreNotJson()
    ensures !IsJson("text/html")
    ensures !IsJson("text/plain")
    ensures !IsJson("")
    ensures !IsJson("application/+json")
    ensures !IsJson("application/vnd.api+json-patch")
    ensures !IsJson("application/json; charset=UTF-8")
    ensures !IsJson("APPLICATION/JSON")
  {
    var cs := "application/json; charset=UTF-8";
    assert cs[|cs| - 5..][4] == '8';
    var p := "application/vnd.api+json-patch";
    assert p[|p| - 5..][0] == 'p';
    var u := "APPLICATION/JSON";
    assert |u| < 18;
  }
}
