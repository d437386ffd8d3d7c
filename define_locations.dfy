/**
 * The location-definition view of the geo-ops nerdlet: associating a freshly
 * written location with the current map, reporting the combined outcome of
 * both writes, and choosing what the location list panel shows.
 */
module DefineLocations {
  import opened Wrappers

  /** JavaScript truthiness of a guid property: present and not the empty string. */
  predicate Truthy(guid: Option<string>): (t: bool)
    ensures !t <==> guid == None || guid == Some("")
    ensures t ==> |guid.value| >= 1
  {
    guid.Some? && guid.value != ""
  }

  /** A location document as the form hands it back; its other properties are carried untouched. */
  datatype Location = Location(guid: Option<string>, attributes: map<string, string>)

  /** The map the view belongs to (the `map` prop). */
  datatype GeoMap = GeoMap(guid: Option<string>)

  /** A plain JavaScript object with string-valued properties. */
  type Document = map<string, string>

  const LocationKey: string := "location"
  const MapKey: string := "map"

  const MissingGuids: JsError := Error("Error: missing location or map guids")

  /** One call of the external map-location write service. */
  datatype WriteCall = WriteCall(accountId: Option<int>, document: Document)

  /** The `{data, error}` answer of the write service. */
  datatype WriteData = WriteData(nerdStorageWriteDocument: Option<Document>)
  datatype WriteResponse = WriteResponse(data: Option<WriteData>, error: Option<string>)

  /** The `{document, error}` event the schema form emits after writing a location. */
  datatype StoredLocation = StoredLocation(document: Option<Location>)
  datatype FormWrite = FormWrite(document: StoredLocation, error: Option<string>)

  /** One half of the combined report: its data and its own error. */
  datatype Outcome<T> = Outcome(data: T, error: Option<string>)

  /** The argument handed to the `onLocationWrite` prop. */
  datatype Report = Report(location: Outcome<Location>, mapLocation: Outcome<Option<Document>>)

  /** How the promise returned by `onWrite` settles. */
  datatype Settled = Resolved | Rejected(error: JsError)

  /** The association record: exactly the two guid properties. */
  function AssociationRecord(locationGuid: string, mapGuid: string): (d: Document)
    ensures d.Keys == {LocationKey, MapKey} && |d| == 2
    ensures d[LocationKey] == locationGuid && d[MapKey] == mapGuid
  {
    map[LocationKey := locationGuid, MapKey := mapGuid]
  }

  /**
   * The write `writeMapLocation` issues for a location, or the error it throws
   * instead: a missing location fails reading `guid`, a falsy guid on either
   * side fails the guard, otherwise one write of the two-field record scoped
   * to the view's account.
   */
  function PlannedWrite(accountId: Option<int>, geoMap: GeoMap, location: Option<Location>): (r: Result<WriteCall, JsError>)
    ensures location.None? ==> r == Failure(TypeError("guid"))
    ensures location.Some? ==>
      (r.Failure? <==> !Truthy(location.value.guid) || !Truthy(geoMap.guid))
    ensures location.Some? && r.Failure? ==> r.error == MissingGuids
    ensures r.Success? ==>
      && r.value.accountId == accountId
      && r.value.document.Keys == {LocationKey, MapKey}
      && r.value.document[LocationKey] == location.value.guid.value
      && r.value.document[MapKey] == geoMap.guid.value
      && r.value.document[LocationKey] != "" && r.value.document[MapKey] != ""
  {
    if location.None? then Failure(TypeError("guid"))
    else if !Truthy(location.value.guid) || !Truthy(geoMap.guid) then Failure(MissingGuids)
    else Success(WriteCall(accountId, AssociationRecord(location.value.guid.value, geoMap.guid.value)))
  }

  /** Everything one `onWrite` call does: the writes it issues, the reports it makes, how it settles. */
  datatype Effect = Effect(writes: seq<WriteCall>, reports: seq<Report>, settled: Settled)

  /**
   * The effect of one form submission: at most one association write, never
   * retried, issued whatever the location write's own error; a report only
   * after that write has answered with data, passing the location half through
   * unchanged and keeping the write's error apart from it.
   */
  function Submission(accountId: Option<int>, geoMap: GeoMap, event: FormWrite, response: WriteResponse): (e: Effect)
    ensures |e.writes| <= 1 && |e.reports| <= 1
    ensures |e.writes| == 1 <==> PlannedWrite(accountId, geoMap, event.document.document).Success?
    ensures |e.writes| == 1 ==> e.writes[0] == PlannedWrite(accountId, geoMap, event.document.document).value
    ensures |e.reports| == 1 <==> |e.writes| == 1 && response.data.Some?
    ensures e.settled == Resolved <==> |e.reports| == 1
    ensures |e.reports| == 1 ==>
      && e.reports[0].location == Outcome(event.document.document.value, event.error)
      && e.reports[0].mapLocation == Outcome(response.data.value.nerdStorageWriteDocument, response.error)
    ensures |e.writes| == 0 ==> e.settled == Rejected(PlannedWrite(accountId, geoMap, event.document.document).error)
  {
    var location := event.document.document;
    match PlannedWrite(accountId, geoMap, location)
    case Failure(err) => Effect([], [], Rejected(err))
    case Success(call) =>
      if response.data.None? then Effect([call], [], Rejected(TypeError("nerdStorageWriteDocument")))
      else
        var report := Report(Outcome(location.value, event.error),
                             Outcome(response.data.value.nerdStorageWriteDocument, response.error));
        Effect([call], [report], Resolved)
  }

  /** The association write does not look at the location write's error: it is attempted all the same. */
  lemma WriteIgnoresLocationError(accountId: Option<int>, geoMap: GeoMap, doc: StoredLocation,
                                  e1: Option<string>, e2: Option<string>, response: WriteResponse)
    ensures Submission(accountId, geoMap, FormWrite(doc, e1), response).writes
         == Submission(accountId, geoMap, FormWrite(doc, e2), response).writes
  {
  }

  /** The location-definition view; its props are constant, its effects are logged. */
  class DefineLocationsView {
    const accountId: Option<int>
    const geoMap: GeoMap
    /** Every call made to the map-location write service, in order. */
    var writeCalls: seq<WriteCall>
    /** Every call made to the `onLocationWrite` prop, in order. */
    var reports: seq<Report>

    constructor (accountId: Option<int>, geoMap: GeoMap)
      ensures this.accountId == accountId && this.geoMap == geoMap
      ensures writeCalls == [] && reports == []
    {
      this.accountId := accountId;
      this.geoMap := geoMap;
      writeCalls := [];
      reports := [];
    }

    /**
     * Guards the guids, builds the association record property by property and
     * issues the write; `response` is what the service answers.
     */
    method WriteMapLocation(location: Option<Location>, response: WriteResponse) returns (r: Result<WriteResponse, JsError>)
      modifies this`writeCalls
      ensures PlannedWrite(accountId, geoMap, location).Failure? ==>
        r == Failure(PlannedWrite(accountId, geoMap, location).error) && writeCalls == old(writeCalls)
      ensures PlannedWrite(accountId, geoMap, location).Success? ==>
        r == Success(response) && writeCalls == old(writeCalls) + [PlannedWrite(accountId, geoMap, location).value]
    {
      var mapLocation: Document := map[];
      if location.None? {
        return Failure(TypeError("guid"));
      }
      var loc := location.value;
      if !Truthy(loc.guid) || !Truthy(geoMap.guid) {
        return Failure(MissingGuids);
      }
      mapLocation := mapLocation[LocationKey := loc.guid.value];
      mapLocation := mapLocation[MapKey := geoMap.guid.value];
      writeCalls := writeCalls + [WriteCall(accountId, mapLocation)];
      r := Success(response);
    }

    /** Handles the form's write event: write the association, then report both outcomes. */
    method OnWrite(event: FormWrite, response: WriteResponse) returns (s: Settled)
      modifies this`writeCalls, this`reports
      ensures writeCalls == old(writeCalls) + Submission(accountId, geoMap, event, response).writes
      ensures reports == old(reports) + Submission(accountId, geoMap, event, response).reports
      ensures s == Submission(accountId, geoMap, event, response).settled
    {
      var location := event.document.document;
      var written := WriteMapLocation(location, response);
      if written.Failure? {
        return Rejected(written.error);
      }
      var data := written.value.data;
      if data.None? {
        return Rejected(TypeError("nerdStorageWriteDocument"));
      }
      reports := reports + [Report(Outcome(location.value, event.error),
                                   Outcome(data.value.nerdStorageWriteDocument, written.value.error))];
      s := Resolved;
    }
  }

  /** Submitting the same pair twice writes the association twice: nothing is deduplicated. */
  method SubmitTwice(view: DefineLocationsView, event: FormWrite, response: WriteResponse)
    requires PlannedWrite(view.accountId, view.geoMap, event.document.document).Success?
    modifies view
    ensures |view.writeCalls| == |old(view.writeCalls)| + 2
    ensures view.writeCalls[|view.writeCalls| - 1] == view.writeCalls[|view.writeCalls| - 2]
  {
    var _ := view.OnWrite(event, response);
    var _ := view.OnWrite(event, response);
  }

  /** Which parts of the location list panel are rendered. */
  datatype ListPanels = ListPanels(spinner: bool, emptyState: bool, table: bool)

  /**
   * The three independent conditions of the list panel: exactly one part shows,
   * and the spinner takes precedence over both the empty state and the table.
   */
  function RenderListPanels(locationsLoading: bool, locations: seq<Location>): (p: ListPanels)
    ensures p.spinner || p.emptyState || p.table
    ensures !(p.spinner && p.emptyState) && !(p.spinner && p.table) && !(p.emptyState && p.table)
    ensures p.spinner <==> locationsLoading
    ensures p.emptyState <==> !locationsLoading && locations == []
    ensures p.table <==> !locationsLoading && locations != []
  {
    ListPanels(locationsLoading,
               !locationsLoading && |locations| == 0,
               !locationsLoading && |locations| > 0)
  }
}
