/** `split_bbox`: the bbox of a package, as text and as numbers. */
module Bboxes {
  import opened Common
  import opened Tiles

  /** An error with its HTTP status. */
  datatype HttpException = HttpException(status: int, detail: string)

  const HTTP_400_BAD_REQUEST := 400
  const FORMAT_ERROR := "'bbox' needs to be a comma-delimited string in the format minx,miny,maxx,maxy."
  const GEOMETRY_ERROR := "'bbox' has an invalid geometry."

  /** `s.split(c)` */
  function Split(s: string, c: char): (parts: seq<string>)
    ensures |parts| > 0
  {
    if |s| == 0 then [""]
    else
      var rest := Split(s[1..], c);
      if s[0] == c then [""] + rest else [[s[0]] + rest[0]] + rest[1..]
  }

  /** `c.join(parts)` */
  function Join(parts: seq<string>, c: char): string
    requires |parts| > 0
  {
    if |parts| == 1 then parts[0] else parts[0] + [c] + Join(parts[1..], c)
  }

  lemma {:induction false} SplitAtSeparator(part: string, s: string, c: char)
    requires c !in part
    ensures Split(part + [c] + s, c) == [part] + Split(s, c)
  {
    var all := part + [c] + s;
    if |part| == 0 {
      assert all[1..] == s;
    } else {
      SplitAtSeparator(part[1..], s, c);
      assert all[1..] == part[1..] + [c] + s;
      assert [part[0]] + part[1..] == part;
    }
  }

  lemma {:induction false} SplitWithoutSeparator(part: string, c: char)
    requires c !in part
    ensures Split(part, c) == [part]
  {
    if |part| > 0 {
      SplitWithoutSeparator(part[1..], c);
      assert [part[0]] + part[1..] == part;
    }
  }

  /** Splitting what was joined gives the parts back, if none of them holds the separator. */
  lemma {:induction false} SplitOfJoin(parts: seq<string>, c: char)
    requires |parts| > 0 && forall part | part in parts :: c !in part
    ensures Split(Join(parts, c), c) == parts
  {
    if |parts| == 1 {
      SplitWithoutSeparator(parts[0], c);
    } else {
      SplitOfJoin(parts[1..], c);
      SplitAtSeparator(parts[0], Join(parts[1..], c), c);
      assert parts[0] in parts;
    }
  }

  /** Some field is not a number. */
  predicate HasBadField(fields: seq<string>, float: string -> Option<real>) {
    exists field | field in fields :: float(field).None?
  }

  /** `split_bbox`, with `float` as it reads a number. No text means no bbox. */
  function SplitBbox(bbox: string, float: string -> Option<real>): Result<Option<Bbox>, HttpException> {
    if bbox == "" then Ok(None)
    else
      var fields := Split(bbox, ',');
      if HasBadField(fields, float) then Raised(HttpException(HTTP_400_BAD_REQUEST, FORMAT_ERROR))
      else if |fields| != 4 then Raised(HttpException(HTTP_400_BAD_REQUEST, FORMAT_ERROR))
      else
        var minX, minY, maxX, maxY :=
            float(fields[0]).value, float(fields[1]).value, float(fields[2]).value, float(fields[3]).value;
        if (minX >= maxX || minX < -180.0 || maxX > 180.0) || (minY >= maxY || minY < -90.0 || maxY > 90.0) then
          Raised(HttpException(HTTP_400_BAD_REQUEST, GEOMETRY_ERROR))
        else Ok(Some(Bbox(minX, minY, maxX, maxY)))
  }

  /** What it lets through is a box on the globe; anything else is a client error, with the reason that applies. */
  lemma SplitBboxChecks(bbox: string, float: string -> Option<real>)
    ensures var r, fields := SplitBbox(bbox, float), Split(bbox, ',');
            && (r == Ok(None) <==> bbox == "")
            && (r.Ok? && r.value.Some? ==> OnGlobe(r.value.value))
            && (r.Raised? ==> r.error.status == HTTP_400_BAD_REQUEST)
            && (r.Raised? && r.error.detail == FORMAT_ERROR
                <==> bbox != "" && (|fields| != 4 || HasBadField(fields, float)))
  {
    assert |FORMAT_ERROR| != |GEOMETRY_ERROR|;
  }

  /** The text of a box on the globe is read as that box, if `float` reads each number as it was printed. */
  lemma SplitBboxRoundTrip(b: Bbox, text: real -> string, float: string -> Option<real>)
    requires forall x :: float(text(x)) == Some(x) && ',' !in text(x)
    ensures SplitBbox(Join([text(b.minX), text(b.minY), text(b.maxX), text(b.maxY)], ','), float).Ok? <==> OnGlobe(b)
    ensures OnGlobe(b) <==> -180.0 <= b.minX < b.maxX <= 180.0 && -90.0 <= b.minY < b.maxY <= 90.0
    ensures OnGlobe(b) ==>
              SplitBbox(Join([text(b.minX), text(b.minY), text(b.maxX), text(b.maxY)], ','), float) == Ok(Some(b))
  {
    var parts := [text(b.minX), text(b.minY), text(b.maxX), text(b.maxY)];
    SplitOfJoin(parts, ',');
    assert Join(parts, ',') != "" by {
      assert ',' in Join(parts, ',') by { assert Join(parts, ',')[|parts[0]|] == ','; }
    }
    assert parts[0] in parts && parts[1] in parts && parts[2] in parts && parts[3] in parts;
  }
}
