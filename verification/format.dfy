/**
 Construction of the points-lookup URL (`getWeatherApiUrl`, line 70), which
 goes through Go's `fmt.Sprint`. Sprint writes its operands one after another
 and puts a single space between two adjacent operands only when NEITHER is a
 string; every operand at line 70 is a string, so the URL is the plain
 concatenation. Nothing is escaped, so a comma inside the latitude makes the
 URL ambiguous; `SplitPointsUrl` recovers the coordinates whenever it is not.
 */
module Format {
  import opened Types

  /** A Sprint operand, by its already-formatted text: a string-kinded value,
      or any other value (number, struct, ...) whose `%v` text is given. */
  datatype Operand = Str(s: string) | NonStr(text: string)

  function Text(op: Operand): string
  {
    match op
    case Str(s) => s
    case NonStr(t) => t
  }

  /** `fmt.Sprint`: operands left to right, a space between two adjacent
      operands when neither is a string. */
  function Sprint(ops: seq<Operand>): string
  {
    if |ops| == 0 then ""
    else
      var n := |ops|;
      var sep := if n >= 2 && ops[n - 2].NonStr? && ops[n - 1].NonStr? then " " else "";
      Sprint(ops[..n - 1]) + sep + Text(ops[n - 1])
  }

  /** Independent reference: the texts of the operands with nothing between. */
  function Concat(ops: seq<Operand>): string
  {
    if |ops| == 0 then "" else Text(ops[0]) + Concat(ops[1..])
  }

  lemma {:induction false} ConcatSnoc(ops: seq<Operand>, last: Operand)
    ensures Concat(ops + [last]) == Concat(ops) + Text(last)
  {
    if |ops| == 0 {
      assert ops + [last] == [last];
    } else {
      assert (ops + [last])[1..] == ops[1..] + [last];
      ConcatSnoc(ops[1..], last);
    }
  }

  /** With only string operands Sprint inserts no separators. */
  lemma {:induction false} SprintOfStrings(ops: seq<Operand>)
    requires forall i :: 0 <= i < |ops| ==> ops[i].Str?
    ensures Sprint(ops) == Concat(ops)
  {
    if |ops| > 0 {
      var n := |ops|;
      SprintOfStrings(ops[..n - 1]);
      ConcatSnoc(ops[..n - 1], ops[n - 1]);
      assert ops[..n - 1] + [ops[n - 1]] == ops;
    }
  }

  /** Two adjacent non-string operands are separated by one space. */
  lemma SprintSeparatesNonStrings(a: string, b: string)
    ensures Sprint([NonStr(a), NonStr(b)]) == a + " " + b
  {
    var ops := [NonStr(a), NonStr(b)];
    assert ops[..1] == [NonStr(a)];
    assert [NonStr(a)][..0] == [];
    assert Sprint([NonStr(a)]) == a;
  }

  const PointsPrefix := "https://api.weather.gov/points/"

  /** The points-lookup URL for a coordinate, as line 70 builds it. */
  function PointsUrl(lat: string, long: string): (url: string)
    ensures url == PointsPrefix + lat + "," + long
    ensures url[..|PointsPrefix|] == PointsPrefix
    ensures url[|url| - |long|..] == long
  {
    var ops := [Str(PointsPrefix), Str(lat), Str(","), Str(long)];
    SprintOfStrings(ops);
    assert Concat(ops) == PointsPrefix + lat + "," + long by {
      assert Concat([Str(long)]) == long by { assert [Str(long)][1..] == []; }
      assert ops[1..][1..][1..] == [Str(long)];
      assert Concat(ops[1..][1..]) == "," + long;
      assert Concat(ops[1..]) == lat + "," + long;
    }
    Sprint(ops)
  }

  /** Index of the first `c` in `s`, or `|s|` when there is none. */
  function IndexOf(s: string, c: char): (i: nat)
    ensures i <= |s|
    ensures i < |s| ==> s[i] == c
    ensures forall j :: 0 <= j < i ==> s[j] != c
  {
    if |s| == 0 then 0
    else if s[0] == c then 0
    else 1 + IndexOf(s[1..], c)
  }

  /** Partner of `PointsUrl`: recovers `(lat, long)` by splitting at the first
      comma after the prefix. */
  function SplitPointsUrl(url: string): (r: Option<(string, string)>)
    ensures r.Some? ==> PointsUrl(r.value.0, r.value.1) == url && ',' !in r.value.0
  {
    var p := |PointsPrefix|;
    if |url| < p || url[..p] != PointsPrefix then None
    else
      var rest := url[p..];
      var i := IndexOf(rest, ',');
      if i == |rest| then None
      else
        assert url == PointsPrefix + rest[..i] + "," + rest[i + 1..] by {
          assert rest == rest[..i] + [rest[i]] + rest[i + 1..];
        }
        Some((rest[..i], rest[i + 1..]))
  }

  /** Round trip: when the latitude holds no comma the coordinate is recovered. */
  lemma PointsUrlRoundTrip(lat: string, long: string)
    requires ',' !in lat
    ensures SplitPointsUrl(PointsUrl(lat, long)) == Some((lat, long))
  {
    var url := PointsUrl(lat, long);
    var rest := url[|PointsPrefix|..];
    assert rest == lat + "," + long;
    var i := IndexOf(rest, ',');
    assert rest[|lat|] == ',';
    assert i == |lat|;
    assert url[..|PointsPrefix|] == PointsPrefix;
    assert rest[..i] == lat;
    assert rest[i + 1..] == long;
  }

  /** Without escaping, distinct coordinates can share a URL. */
  lemma PointsUrlNotInjective()
    ensures PointsUrl("33,5", "1") == PointsUrl("33", "5,1")
  {
  }
}
