/** The URLs of the statistics endpoints. The campaign statistics URL is built
    step by step: the path, then a query of the optional dates that a
    `URLSearchParams` object serializes as application/x-www-form-urlencoded
    text. The HTTP call that fetches it is outside the model. */
module StatsApi {
  import opened JsValues

  const CampaignStatsPrefix: string := "/api/admin/stats/campaign/"
  const DailyStatsPrefix: string := "/api/admin/stats/daily?date="
  /** The names of the two date parameters. */
  const StartDateKey: string := "startDate"
  const EndDateKey: string := "endDate"

  /** The daily statistics URL: the date is pasted in as it is, unencoded. */
  function DailyStatsUrl(date: string): (url: string)
    ensures |url| == |DailyStatsPrefix| + |date|
    ensures url[..|DailyStatsPrefix|] == DailyStatsPrefix && url[|DailyStatsPrefix|..] == date
  {
    DailyStatsPrefix + date
  }

  /** The UTF-8 encoding of one Unicode scalar value. */
  function Utf8(c: char): (bs: seq<int>)
    ensures 1 <= |bs| <= 4
    ensures forall i :: 0 <= i < |bs| ==> 0 <= bs[i] < 256
    ensures (c as int < 0x80) == (bs == [c as int])
  {
    var v := c as int;
    if v < 0x80 then [v]
    else if v < 0x800 then [0xC0 + v / 0x40, 0x80 + v % 0x40]
    else if v < 0x1_0000 then [0xE0 + v / 0x1000, 0x80 + (v / 0x40) % 0x40, 0x80 + v % 0x40]
    else [0xF0 + v / 0x4_0000, 0x80 + (v / 0x1000) % 0x40, 0x80 + (v / 0x40) % 0x40, 0x80 + v % 0x40]
  }

  /** A byte the form serializer copies as it is: `*`, `-`, `.`, `_`, an ASCII
      digit or an ASCII letter. */
  predicate IsFormSafe(b: int)
  {
    b == 0x2A || b == 0x2D || b == 0x2E || b == 0x5F
    || (0x30 <= b <= 0x39) || (0x41 <= b <= 0x5A) || (0x61 <= b <= 0x7A)
  }

  /** A character that can occur in serialized form text: a safe byte, the `+`
      standing for a space, or the `%` of a percent-escape. */
  predicate IsFormChar(c: char)
  {
    IsFormSafe(c as int) || c == '+' || c == '%'
  }

  predicate AllFormChars(s: string)
  {
    forall i :: 0 <= i < |s| ==> IsFormChar(s[i])
  }

  /** An upper-case hexadecimal digit. */
  function HexDigit(n: int): (c: char)
    requires 0 <= n < 16
    ensures IsFormSafe(c as int)
  {
    if n < 10 then ('0' as int + n) as char else ('A' as int + n - 10) as char
  }

  /** One byte of form text: itself if safe, `+` for a space, else `%XX`. */
  function EncodeByte(b: int): (s: string)
    requires 0 <= b < 256
    ensures AllFormChars(s)
  {
    if IsFormSafe(b) then [b as char]
    else if b == 0x20 then "+"
    else ['%', HexDigit(b / 16), HexDigit(b % 16)]
  }

  function EncodeBytes(bs: seq<int>): string
    requires forall i :: 0 <= i < |bs| ==> 0 <= bs[i] < 256
  {
    if bs == [] then "" else EncodeByte(bs[0]) + EncodeBytes(bs[1..])
  }

  /** The application/x-www-form-urlencoded byte serializer applied to the
      UTF-8 bytes of `s`. */
  function FormEncode(s: string): string
  {
    if s == [] then "" else EncodeBytes(Utf8(s[0])) + FormEncode(s[1..])
  }

  /** Serialized form text holds only safe characters, `+` and `%`: in
      particular no `&`, `=` or `?` that could be mistaken for a separator. */
  lemma {:induction false} FormEncodeChars(s: string)
    ensures AllFormChars(FormEncode(s))
  {
    if s != [] {
      EncodeBytesChars(Utf8(s[0]));
      FormEncodeChars(s[1..]);
      FormCharsConcat(EncodeBytes(Utf8(s[0])), FormEncode(s[1..]));
    }
  }

  lemma {:induction false} EncodeBytesChars(bs: seq<int>)
    requires forall i :: 0 <= i < |bs| ==> 0 <= bs[i] < 256
    ensures AllFormChars(EncodeBytes(bs))
  {
    if bs != [] {
      EncodeBytesChars(bs[1..]);
      FormCharsConcat(EncodeByte(bs[0]), EncodeBytes(bs[1..]));
    }
  }

  lemma FormCharsConcat(a: string, b: string)
    requires AllFormChars(a) && AllFormChars(b)
    ensures AllFormChars(a + b)
  {
    forall i | 0 <= i < |a + b| ensures IsFormChar((a + b)[i]) {
      if i >= |a| {
        assert (a + b)[i] == b[i - |a|];
      }
    }
  }

  /** `URLSearchParams.prototype.toString`: `name=value` pairs joined by `&`. */
  function Serialize(params: seq<(string, string)>): string
  {
    if params == [] then ""
    else if |params| == 1 then FormEncode(params[0].0) + "=" + FormEncode(params[0].1)
    else Serialize(params[..|params| - 1]) + "&"
         + FormEncode(params[|params| - 1].0) + "=" + FormEncode(params[|params| - 1].1)
  }

  /** The path of the campaign statistics endpoint. */
  function CampaignStatsPath(campaignId: int): string
  {
    CampaignStatsPrefix + IntToString(campaignId)
  }

  /** The query the campaign statistics URL ends with: empty when neither date
      is given (an empty string counts as not given), otherwise `?` and the
      given dates, `startDate` first. */
  function StatsQuery(startDate: Option<string>, endDate: Option<string>): string
  {
    if Truthy(startDate) && Truthy(endDate) then
      "?startDate=" + FormEncode(startDate.value) + "&endDate=" + FormEncode(endDate.value)
    else if Truthy(startDate) then "?startDate=" + FormEncode(startDate.value)
    else if Truthy(endDate) then "?endDate=" + FormEncode(endDate.value)
    else ""
  }

  /** `getCampaignStats`'s URL, built as the source builds it: a mutable `url`,
      a parameter list that each truthy date is appended to, and a `?` query
      added only when the serialized parameters are not empty. */
  method CampaignStatsUrl(campaignId: int, startDate: Option<string>, endDate: Option<string>) returns (url: string)
    ensures url == CampaignStatsPath(campaignId) + StatsQuery(startDate, endDate)
  {
    url := CampaignStatsPath(campaignId);
    var params: seq<(string, string)> := [];
    if Truthy(startDate) {
      params := params + [(StartDateKey, startDate.value)];
    }
    if Truthy(endDate) {
      params := params + [(EndDateKey, endDate.value)];
    }
    assert params == DateParams(startDate, endDate);
    var query := Serialize(params);
    SerializedDates(startDate, endDate);
    if query != "" {
      url := url + ("?" + query);
    } else {
      assert url == url + query;
    }
  }

  /** The parameters `getCampaignStats` appends: each truthy date, in order. */
  function DateParams(startDate: Option<string>, endDate: Option<string>): seq<(string, string)>
  {
    (if Truthy(startDate) then [(StartDateKey, startDate.value)] else [])
    + (if Truthy(endDate) then [(EndDateKey, endDate.value)] else [])
  }

  /** Serializing the date parameters gives the query after its `?`. */
  lemma SerializedDates(startDate: Option<string>, endDate: Option<string>)
    ensures var query := Serialize(DateParams(startDate, endDate));
      (if query == "" then "" else "?" + query) == StatsQuery(startDate, endDate)
  {
    var params := DateParams(startDate, endDate);
    if Truthy(startDate) && Truthy(endDate) {
      assert params == [(StartDateKey, startDate.value), (EndDateKey, endDate.value)];
      QueryOfBoth(startDate.value, endDate.value);
    } else if Truthy(startDate) {
      assert params == [(StartDateKey, startDate.value)];
      QueryOfStart(startDate.value);
    } else if Truthy(endDate) {
      assert params == [(EndDateKey, endDate.value)];
      QueryOfEnd(endDate.value);
    } else {
      assert params == [];
    }
  }

  lemma QueryOfBoth(start: string, end: string)
    ensures var query := Serialize([(StartDateKey, start), (EndDateKey, end)]);
      query != "" && "?" + query == "?startDate=" + FormEncode(start) + "&endDate=" + FormEncode(end)
  {
    SerializeTwo(StartDateKey, start, EndDateKey, end);
    ParamNames();
    TwoDatesText(FormEncode(start), FormEncode(end));
  }

  lemma QueryOfStart(start: string)
    ensures var query := Serialize([(StartDateKey, start)]);
      query != "" && "?" + query == "?startDate=" + FormEncode(start)
  {
    SerializeOne(StartDateKey, start);
    ParamNames();
    OneDateText(FormEncode(start));
  }

  lemma QueryOfEnd(end: string)
    ensures var query := Serialize([(EndDateKey, end)]);
      query != "" && "?" + query == "?endDate=" + FormEncode(end)
  {
    SerializeOne(EndDateKey, end);
    ParamNames();
    OneDateText(FormEncode(end));
  }

  lemma TwoDatesText(a: string, b: string)
    ensures "?" + (StartDateKey + "=" + a + "&" + EndDateKey + "=" + b) == "?startDate=" + a + "&endDate=" + b
  {
  }

  lemma OneDateText(a: string)
    ensures "?" + (StartDateKey + "=" + a) == "?startDate=" + a
    ensures "?" + (EndDateKey + "=" + a) == "?endDate=" + a
  {
  }

  lemma ParamNames()
    ensures FormEncode(StartDateKey) == StartDateKey && FormEncode(EndDateKey) == EndDateKey
  {
    KeyEncoded(StartDateKey);
    KeyEncoded(EndDateKey);
  }

  lemma KeyEncoded(key: string)
    requires key == StartDateKey || key == EndDateKey
    ensures FormEncode(key) == key
  {
    assert forall i :: 0 <= i < |key| ==> 'a' <= key[i] <= 'z' || 'A' <= key[i] <= 'Z';
    LettersEncodeAsThemselves(key);
  }

  /** A word of ASCII letters is serialized unchanged. */
  lemma LettersEncodeAsThemselves(w: string)
    requires forall i :: 0 <= i < |w| ==> 'a' <= w[i] <= 'z' || 'A' <= w[i] <= 'Z'
    ensures FormEncode(w) == w
  {
    FormEncodeSafe(w);
  }

  lemma SerializeOne(name: string, value: string)
    ensures Serialize([(name, value)]) == FormEncode(name) + "=" + FormEncode(value)
  {
  }

  lemma SerializeTwo(name1: string, value1: string, name2: string, value2: string)
    ensures Serialize([(name1, value1), (name2, value2)])
      == FormEncode(name1) + "=" + FormEncode(value1) + "&" + FormEncode(name2) + "=" + FormEncode(value2)
  {
    var ps := [(name1, value1), (name2, value2)];
    assert ps[..1] == [(name1, value1)];
    SerializeOne(name1, value1);
    assert Serialize(ps) == Serialize(ps[..1]) + "&" + FormEncode(name2) + "=" + FormEncode(value2);
  }

  /** A string of safe ASCII characters, such as a `yyyy-MM-dd` date or a
      parameter name, is serialized unchanged. */
  lemma {:induction false} FormEncodeSafe(s: string)
    requires forall i :: 0 <= i < |s| ==> IsFormSafe(s[i] as int)
    ensures FormEncode(s) == s
  {
    if s != [] {
      SafeCharEncodes(s[0]);
      FormEncodeSafe(s[1..]);
      assert s == [s[0]] + s[1..];
    }
  }

  /** A safe character is one byte of UTF-8, copied as it is. */
  lemma SafeCharEncodes(c: char)
    requires IsFormSafe(c as int)
    ensures EncodeBytes(Utf8(c)) == [c]
  {
    var b := c as int;
    assert Utf8(c) == [b];
    assert EncodeByte(b) == [c];
    assert EncodeBytes([b]) == EncodeByte(b) + EncodeBytes([]);
  }

  /** The query is empty exactly when neither date is a non-empty string, so
      an empty-string date is treated as absent. */
  lemma StatsQueryEmptyIff(startDate: Option<string>, endDate: Option<string>)
    ensures StatsQuery(startDate, endDate) == "" <==> !Truthy(startDate) && !Truthy(endDate)
    ensures StatsQuery(Some(""), endDate) == StatsQuery(None, endDate)
    ensures StatsQuery(startDate, Some("")) == StatsQuery(startDate, None)
  {
  }

  /** The campaign statistics URL always starts with the endpoint path, holds
      a `?` exactly where the query starts when some date is given, and no `?`
      anywhere else: serialized dates cannot contain one. */
  lemma StatsUrlQuestionMark(campaignId: int, startDate: Option<string>, endDate: Option<string>)
    ensures var path := CampaignStatsPath(campaignId);
      var url := path + StatsQuery(startDate, endDate);
      && path <= url
      && (forall i :: 0 <= i < |url| && url[i] == '?' ==> i == |path|)
      && (|url| > |path| <==> Truthy(startDate) || Truthy(endDate))
      && (|url| > |path| ==> url[|path|] == '?')
  {
    var path := CampaignStatsPath(campaignId);
    var query := StatsQuery(startDate, endDate);
    var url := path + query;
    PathHasNoQuestionMark(campaignId);
    assert query == "" || query[0] == '?';
    forall i | 0 <= i < |url| && url[i] == '?' ensures i == |path| {
      if i > |path| {
        assert url[i] == query[i - |path|];
        QueryHasOneQuestionMark(startDate, endDate, i - |path|);
      }
    }
  }

  lemma PathHasNoQuestionMark(campaignId: int)
    ensures forall i :: 0 <= i < |CampaignStatsPath(campaignId)| ==> CampaignStatsPath(campaignId)[i] != '?'
  {
    var digits := IntToString(campaignId);
    assert forall i :: 0 <= i < |digits| ==> digits[i] == '-' || IsDigit(digits[i], 10);
    assert forall i :: 0 <= i < |CampaignStatsPrefix| ==> CampaignStatsPrefix[i] != '?';
  }

  lemma QueryHasOneQuestionMark(startDate: Option<string>, endDate: Option<string>, k: int)
    requires 0 < k < |StatsQuery(startDate, endDate)|
    ensures StatsQuery(startDate, endDate)[k] != '?'
  {
    var q := StatsQuery(startDate, endDate);
    if Truthy(startDate) {
      var a := FormEncode(startDate.value);
      NoQuestionMark(startDate.value);
      if Truthy(endDate) {
        var b := FormEncode(endDate.value);
        NoQuestionMark(endDate.value);
        assert q == "?startDate=" + a + "&endDate=" + b;
        if k >= 11 + |a| + 9 {
          assert q[k] == b[k - (11 + |a| + 9)];
        } else if 11 <= k < 11 + |a| {
          assert q[k] == a[k - 11];
        }
      } else {
        if k >= 11 {
          assert q[k] == a[k - 11];
        }
      }
    } else if Truthy(endDate) {
      var b := FormEncode(endDate.value);
      NoQuestionMark(endDate.value);
      if k >= 9 {
        assert q[k] == b[k - 9];
      }
    }
  }

  lemma NoQuestionMark(s: string)
    ensures forall i :: 0 <= i < |FormEncode(s)| ==> FormEncode(s)[i] != '?'
  {
    FormEncodeChars(s);
  }
}
