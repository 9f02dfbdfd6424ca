/**
 * The sports configuration helpers (fileutils.cpp): reading the JSON
 * document, listing its sports, their names, and one sport's metric
 * definitions. The file itself is outside the model: what opening and
 * parsing it gave is an input.
 */
module FileUtils {
  import opened Json

  /** What opening and parsing a JSON file gave. */
  datatype LoadOutcome = CannotOpen | ParseError | Parsed(document: Json)

  /** loadJSON: the document's root object, or an empty object when the
    * file cannot be opened, does not parse, or has a non-object root. */
  function LoadJson(outcome: LoadOutcome): (root: map<string, Json>)
    ensures outcome.Parsed? && outcome.document.JObj? ==> root == outcome.document.fields
    ensures !(outcome.Parsed? && outcome.document.JObj?) ==> root == map[]
  {
    match outcome
    case Parsed(JObj(fields)) => fields
    case _ => map[]
  }

  /** The object elements of an array, in order. */
  function ObjectsOf(items: seq<Json>): (r: seq<map<string, Json>>)
    ensures |r| <= |items|
    ensures forall o :: o in r <==> JObj(o) in items
    decreases |items|
  {
    if items == [] then []
    else
      var rest := ObjectsOf(items[..|items| - 1]);
      var last := items[|items| - 1];
      assert items == items[..|items| - 1] + [last];
      if last.JObj? then rest + [last.fields] else rest
  }

  /** The "sports" array, when the document has one. */
  function SportsArray(file: map<string, Json>): seq<Json> {
    if "sports" in file && file["sports"].JArr? then file["sports"].items else []
  }

  /** parseSportObjects */
  function SportObjects(file: map<string, Json>): seq<map<string, Json>> {
    ObjectsOf(SportsArray(file))
  }

  /** A sport's name when it has a string "name". */
  predicate Named(sport: map<string, Json>) {
    "name" in sport && sport["name"].JStr?
  }

  function NamesOf(sports: seq<map<string, Json>>): (r: seq<string>)
    ensures |r| <= |sports|
    ensures forall n :: n in r <==> exists k :: 0 <= k < |sports| && Named(sports[k]) && sports[k]["name"].s == n
    decreases |sports|
  {
    if sports == [] then []
    else
      var rest := NamesOf(sports[..|sports| - 1]);
      var last := sports[|sports| - 1];
      if Named(last) then rest + [last["name"].s] else rest
  }

  /** parseSportTypes */
  function SportTypes(file: map<string, Json>): seq<string> {
    NamesOf(SportObjects(file))
  }

  /** Without a "sports" array there are no sports and no sport names;
    * with one, the sports are its object elements. */
  lemma SportsOfDocument(file: map<string, Json>)
    ensures !("sports" in file && file["sports"].JArr?) ==> SportObjects(file) == [] && SportTypes(file) == []
    ensures forall o :: o in SportObjects(file) <==> "sports" in file && JObj(o) in ToArr(file["sports"])
    ensures forall n :: n in SportTypes(file) <==> exists o: map<string, Json> :: o in SportObjects(file) && Named(o) && o["name"].s == n
  {
    var sports := SportObjects(file);
    forall n | n in SportTypes(file)
      ensures exists o: map<string, Json> :: o in sports && Named(o) && o["name"].s == n
    {
      var k :| 0 <= k < |sports| && Named(sports[k]) && sports[k]["name"].s == n;
      assert sports[k] in sports;
    }
    forall n | exists o: map<string, Json> :: o in sports && Named(o) && o["name"].s == n
      ensures n in SportTypes(file)
    {
      var o: map<string, Json> :| o in sports && Named(o) && o["name"].s == n;
      var k :| 0 <= k < |sports| && sports[k] == o;
    }
  }

  /** Whether a sport is the one asked for and has an array of that metric
    * type (a "name" that is not a string reads as ""). */
  predicate HasSettings(sport: map<string, Json>, sportName: string, metricType: string) {
    && "name" in sport && ToStr(sport["name"]) == sportName
    && metricType in sport && sport[metricType].JArr?
  }

  /** The index of the first sport with those settings, or -1. */
  function FirstWithSettings(sports: seq<map<string, Json>>, sportName: string, metricType: string): (k: int)
    ensures -1 <= k < |sports|
    ensures k >= 0 ==> HasSettings(sports[k], sportName, metricType)
    ensures k >= 0 ==> forall j :: 0 <= j < k ==> !HasSettings(sports[j], sportName, metricType)
    ensures k == -1 ==> forall j :: 0 <= j < |sports| ==> !HasSettings(sports[j], sportName, metricType)
    decreases |sports|
  {
    if sports == [] then -1
    else if HasSettings(sports[0], sportName, metricType) then 0
    else
      var k := FirstWithSettings(sports[1..], sportName, metricType);
      if k == -1 then -1 else k + 1
  }

  /** parseSportMetricSettings: the metric array of the first sport with
    * that name that has one, otherwise an empty array. */
  function SportMetricSettings(file: map<string, Json>, sportName: string, metricType: string): seq<Json> {
    var sports := SportObjects(file);
    var k := FirstWithSettings(sports, sportName, metricType);
    if k == -1 then [] else sports[k][metricType].items
  }

  /** A sport of that name listed earlier but without the array does not
    * stop the search: the first sport with both wins. */
  lemma SettingsSkipSportsWithoutArray(file: map<string, Json>, sportName: string, metricType: string, k: int)
    requires 0 <= k < |SportObjects(file)|
    requires HasSettings(SportObjects(file)[k], sportName, metricType)
    requires forall j :: 0 <= j < k ==> !HasSettings(SportObjects(file)[j], sportName, metricType)
    ensures SportMetricSettings(file, sportName, metricType) == SportObjects(file)[k][metricType].items
  {
    var f := FirstWithSettings(SportObjects(file), sportName, metricType);
    assert f >= 0 && !(f < k) && !(k < f);
  }

  /** The loop of parseSportObjects. */
  method ParseSportObjects(file: map<string, Json>) returns (sports: seq<map<string, Json>>)
    ensures sports == SportObjects(file)
  {
    sports := [];
    if !("sports" in file) || !file["sports"].JArr? {
      return;
    }
    var items := file["sports"].items;
    var i := 0;
    while i < |items|
      invariant 0 <= i <= |items|
      invariant sports == ObjectsOf(items[..i])
    {
      assert items[..i + 1][..i] == items[..i];
      if items[i].JObj? {
        sports := sports + [items[i].fields];
      }
      i := i + 1;
    }
    assert items[..i] == items;
  }

  /** The loop of parseSportTypes. */
  method ParseSportTypes(file: map<string, Json>) returns (types: seq<string>)
    ensures types == SportTypes(file)
  {
    var sports := ParseSportObjects(file);
    types := [];
    var i := 0;
    while i < |sports|
      invariant 0 <= i <= |sports|
      invariant types == NamesOf(sports[..i])
    {
      assert sports[..i + 1][..i] == sports[..i];
      if "name" in sports[i] && sports[i]["name"].JStr? {
        types := types + [sports[i]["name"].s];
      }
      i := i + 1;
    }
    assert sports[..i] == sports;
  }

  /** The loop of parseSportMetricSettings, returning at the first match. */
  method ParseSportMetricSettings(file: map<string, Json>, sportName: string, metricType: string) returns (settings: seq<Json>)
    ensures settings == SportMetricSettings(file, sportName, metricType)
  {
    var sports := ParseSportObjects(file);
    var i := 0;
    while i < |sports|
      invariant 0 <= i <= |sports|
      invariant forall j :: 0 <= j < i ==> !HasSettings(sports[j], sportName, metricType)
    {
      var sport := sports[i];
      if "name" in sport && ToStr(sport["name"]) == sportName {
        if metricType in sport && sport[metricType].JArr? {
          SettingsSkipSportsWithoutArray(file, sportName, metricType, i);
          return sport[metricType].items;
        }
      }
      i := i + 1;
    }
    return [];
  }
}
