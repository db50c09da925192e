/** The tactical report: the shape `TacticalReportSchema` accepts, the typed
    report a successful parse yields, and the JSON the handler sends back for
    it. Only the accept/reject decision of the schema library is modelled,
    and, for an accepted value, the typed report it yields. */
module Schema {
  import opened Wrappers
  import opened Json

  datatype Moment = Moment(timestamp: Option<string>, description: string)

  datatype PlayerHighlight = PlayerHighlight(playerName: Option<string>, highlight: string)

  datatype TacticalReport = TacticalReport(
    overallSummary: string,
    formationAnalysis: string,
    keyTacticalMoments: seq<Moment>,
    playerHighlights: Option<seq<PlayerHighlight>>,
    suggestedImprovements: Option<seq<string>>)

  // ---------------------------------------------------------------------
  // What the schema accepts
  // ---------------------------------------------------------------------

  /** A key the schema declares with `z.string()`. */
  predicate RequiredString(fields: map<string, Value>, key: string) {
    key in fields && fields[key].JString?
  }

  /** A key the schema declares with `z.string().optional()`. */
  predicate OptionalString(fields: map<string, Value>, key: string) {
    key !in fields || fields[key].JString?
  }

  /** An element of `keyTacticalMoments`. */
  predicate ValidMoment(v: Value) {
    v.JObject? && OptionalString(v.fields, "timestamp") && RequiredString(v.fields, "description")
  }

  /** An element of `playerHighlights`. */
  predicate ValidHighlight(v: Value) {
    v.JObject? && OptionalString(v.fields, "playerName") && RequiredString(v.fields, "highlight")
  }

  predicate AllMoments(items: seq<Value>) {
    forall i :: 0 <= i < |items| ==> ValidMoment(items[i])
  }

  predicate AllHighlights(items: seq<Value>) {
    forall i :: 0 <= i < |items| ==> ValidHighlight(items[i])
  }

  predicate AllStrings(items: seq<Value>) {
    forall i :: 0 <= i < |items| ==> items[i].JString?
  }

  /** `TacticalReportSchema` accepts `v`: an object with the three required
      keys, and with the two optional arrays well formed where present. */
  predicate ValidReport(v: Value) {
    v.JObject? &&
    RequiredString(v.fields, "overallSummary") &&
    RequiredString(v.fields, "formationAnalysis") &&
    "keyTacticalMoments" in v.fields &&
    v.fields["keyTacticalMoments"].JArray? &&
    AllMoments(v.fields["keyTacticalMoments"].items) &&
    ("playerHighlights" in v.fields ==>
      v.fields["playerHighlights"].JArray? && AllHighlights(v.fields["playerHighlights"].items)) &&
    ("suggestedImprovements" in v.fields ==>
      v.fields["suggestedImprovements"].JArray? && AllStrings(v.fields["suggestedImprovements"].items))
  }

  // ---------------------------------------------------------------------
  // What a successful parse yields
  // ---------------------------------------------------------------------

  function OptionalText(fields: map<string, Value>, key: string): Option<string>
    requires OptionalString(fields, key)
  {
    if key in fields then Some(fields[key].s) else None
  }

  function AsMoment(v: Value): Moment
    requires ValidMoment(v)
  {
    Moment(OptionalText(v.fields, "timestamp"), v.fields["description"].s)
  }

  function AsHighlight(v: Value): PlayerHighlight
    requires ValidHighlight(v)
  {
    PlayerHighlight(OptionalText(v.fields, "playerName"), v.fields["highlight"].s)
  }

  /** `z.array(moment)`: every element parses, or the array is rejected. */
  function ParseMoments(items: seq<Value>): (r: Option<seq<Moment>>)
    ensures r.Some? <==> AllMoments(items)
    ensures r.Some? ==> (|r.value| == |items| &&
      forall i :: 0 <= i < |items| ==> r.value[i] == AsMoment(items[i]))
  {
    if items == [] then Some([])
    else if !ValidMoment(items[0]) then None
    else match ParseMoments(items[1..])
      case None => None
      case Some(rest) => Some([AsMoment(items[0])] + rest)
  }

  /** `z.array(highlight)`. */
  function ParseHighlights(items: seq<Value>): (r: Option<seq<PlayerHighlight>>)
    ensures r.Some? <==> AllHighlights(items)
    ensures r.Some? ==> (|r.value| == |items| &&
      forall i :: 0 <= i < |items| ==> r.value[i] == AsHighlight(items[i]))
  {
    if items == [] then Some([])
    else if !ValidHighlight(items[0]) then None
    else match ParseHighlights(items[1..])
      case None => None
      case Some(rest) => Some([AsHighlight(items[0])] + rest)
  }

  /** `z.array(z.string())`. */
  function ParseStrings(items: seq<Value>): (r: Option<seq<string>>)
    ensures r.Some? <==> AllStrings(items)
    ensures r.Some? ==> (|r.value| == |items| &&
      forall i :: 0 <= i < |items| ==> JString(r.value[i]) == items[i])
  {
    if items == [] then Some([])
    else if !items[0].JString? then None
    else match ParseStrings(items[1..])
      case None => None
      case Some(rest) => Some([items[0].s] + rest)
  }

  /** `TacticalReportSchema.parse(v)`: the typed report, or `None` where the
      library throws its validation error. */
  function ParseReport(v: Value): (r: Option<TacticalReport>)
    ensures r.Some? <==> ValidReport(v)
    ensures r.Some? ==>
      JString(r.value.overallSummary) == v.fields["overallSummary"] &&
      JString(r.value.formationAnalysis) == v.fields["formationAnalysis"] &&
      Some(r.value.keyTacticalMoments) == ParseMoments(v.fields["keyTacticalMoments"].items) &&
      (r.value.playerHighlights.Some? <==> "playerHighlights" in v.fields) &&
      ("playerHighlights" in v.fields ==>
        r.value.playerHighlights == ParseHighlights(v.fields["playerHighlights"].items)) &&
      (r.value.suggestedImprovements.Some? <==> "suggestedImprovements" in v.fields) &&
      ("suggestedImprovements" in v.fields ==>
        r.value.suggestedImprovements == ParseStrings(v.fields["suggestedImprovements"].items))
  {
    if !ValidReport(v) then None
    else
      var f := v.fields;
      var moments := ParseMoments(f["keyTacticalMoments"].items);
      var highlights :=
        if "playerHighlights" in f then ParseHighlights(f["playerHighlights"].items) else None;
      var improvements :=
        if "suggestedImprovements" in f then ParseStrings(f["suggestedImprovements"].items) else None;
      Some(TacticalReport(f["overallSummary"].s, f["formationAnalysis"].s, moments.value,
                          highlights, improvements))
  }

  // ---------------------------------------------------------------------
  // The JSON sent back for a report
  // ---------------------------------------------------------------------

  function OptionalField(key: string, value: Option<Value>): map<string, Value> {
    if value.Some? then map[key := value.value] else map[]
  }

  function OptionalJString(s: Option<string>): Option<Value> {
    if s.Some? then Some(JString(s.value)) else None
  }

  function MomentToJson(m: Moment): Value {
    JObject(map["description" := JString(m.description)] +
            OptionalField("timestamp", OptionalJString(m.timestamp)))
  }

  function HighlightToJson(h: PlayerHighlight): Value {
    JObject(map["highlight" := JString(h.highlight)] +
            OptionalField("playerName", OptionalJString(h.playerName)))
  }

  function MomentsToJson(ms: seq<Moment>): (r: seq<Value>)
    ensures |r| == |ms| && forall i :: 0 <= i < |ms| ==> r[i] == MomentToJson(ms[i])
  {
    if ms == [] then [] else [MomentToJson(ms[0])] + MomentsToJson(ms[1..])
  }

  function HighlightsToJson(hs: seq<PlayerHighlight>): (r: seq<Value>)
    ensures |r| == |hs| && forall i :: 0 <= i < |hs| ==> r[i] == HighlightToJson(hs[i])
  {
    if hs == [] then [] else [HighlightToJson(hs[0])] + HighlightsToJson(hs[1..])
  }

  function StringsToJson(ss: seq<string>): (r: seq<Value>)
    ensures |r| == |ss| && forall i :: 0 <= i < |ss| ==> r[i] == JString(ss[i])
  {
    if ss == [] then [] else [JString(ss[0])] + StringsToJson(ss[1..])
  }

  /** The response body `NextResponse.json(validatedReport)` serialises:
      the report's keys, with absent optional keys left out. */
  function ReportToJson(r: TacticalReport): Value {
    JObject(
      map["overallSummary" := JString(r.overallSummary),
          "formationAnalysis" := JString(r.formationAnalysis),
          "keyTacticalMoments" := JArray(MomentsToJson(r.keyTacticalMoments))] +
      OptionalField("playerHighlights",
        if r.playerHighlights.Some? then Some(JArray(HighlightsToJson(r.playerHighlights.value))) else None) +
      OptionalField("suggestedImprovements",
        if r.suggestedImprovements.Some? then Some(JArray(StringsToJson(r.suggestedImprovements.value))) else None))
  }

  // ---------------------------------------------------------------------
  // Properties
  // ---------------------------------------------------------------------

  lemma MomentRoundTrip(m: Moment)
    ensures ValidMoment(MomentToJson(m)) && AsMoment(MomentToJson(m)) == m
  {
  }

  lemma HighlightRoundTrip(h: PlayerHighlight)
    ensures ValidHighlight(HighlightToJson(h)) && AsHighlight(HighlightToJson(h)) == h
  {
  }

  /** Every report the handler can send back is accepted by the schema, and
      parsing it gives the same report again. */
  lemma ReportRoundTrip(r: TacticalReport)
    ensures ValidReport(ReportToJson(r))
    ensures ParseReport(ReportToJson(r)) == Some(r)
  {
    var v := ReportToJson(r);
    var f := v.fields;
    var ms := MomentsToJson(r.keyTacticalMoments);
    assert f["keyTacticalMoments"] == JArray(ms);
    forall i | 0 <= i < |ms| ensures ValidMoment(ms[i]) && AsMoment(ms[i]) == r.keyTacticalMoments[i] {
      MomentRoundTrip(r.keyTacticalMoments[i]);
    }
    var pm := ParseMoments(ms);
    assert pm.value == r.keyTacticalMoments;
    if r.playerHighlights.Some? {
      var hs := HighlightsToJson(r.playerHighlights.value);
      assert f["playerHighlights"] == JArray(hs);
      forall i | 0 <= i < |hs| ensures ValidHighlight(hs[i]) && AsHighlight(hs[i]) == r.playerHighlights.value[i] {
        HighlightRoundTrip(r.playerHighlights.value[i]);
      }
      assert ParseHighlights(hs).value == r.playerHighlights.value;
    } else {
      assert "playerHighlights" !in f;
    }
    if r.suggestedImprovements.Some? {
      var ss := StringsToJson(r.suggestedImprovements.value);
      assert f["suggestedImprovements"] == JArray(ss);
      assert ParseStrings(ss).value == r.suggestedImprovements.value;
    } else {
      assert "suggestedImprovements" !in f;
    }
  }

  /** A report missing `overallSummary` is rejected. */
  lemma MissingSummaryRejected(v: Value)
    requires v.JObject? && "overallSummary" !in v.fields
    ensures ParseReport(v) == None
  {
  }

  /** The smallest report the schema accepts: the three required keys, with
      one moment that has only a description. */
  lemma MinimalReportAccepted(summary: string, formation: string, description: string)
    ensures ParseReport(JObject(map[
      "overallSummary" := JString(summary),
      "formationAnalysis" := JString(formation),
      "keyTacticalMoments" := JArray([JObject(map["description" := JString(description)])])]))
      == Some(TacticalReport(summary, formation, [Moment(None, description)], None, None))
  {
    var m := JObject(map["description" := JString(description)]);
    assert "timestamp" !in m.fields;
    assert AsMoment(m) == Moment(None, description);
    assert AllMoments([m]);
    var pm := ParseMoments([m]);
    assert pm.value == [Moment(None, description)];
  }
}
