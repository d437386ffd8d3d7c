/**
 * The map-pin detail modal: it looks up the location's configuration, splits
 * the location's monitored entities into infrastructure and application GUID
 * lists, and splices those lists into the NRQL queries of its seven charts.
 */
module DetailModal {
  import opened Wrappers
  import opened ArrayText

  /** A monitored entity attached to a location. */
  datatype Entity = Entity(guid: string, domain: string)

  /** The selected location; only its entities matter to the queries. */
  datatype Location = Location(entities: seq<Entity>)

  /** A per-location-type configuration; `infraNrqlAccountId` is `entities.joins.INFRA.nrql.accountId`. */
  datatype Config = Config(id: string, infraNrqlAccountId: int)

  const Infra: string := "INFRA"
  const Apm: string := "APM"

  /** `Array.prototype.find`: the first configuration whose id equals `configId`, if any. */
  function FindConfig(configs: seq<Config>, configId: string): (r: Option<Config>)
    ensures r.None? <==> forall i :: 0 <= i < |configs| ==> configs[i].id != configId
    ensures r.Some? ==>
      exists i :: 0 <= i < |configs| && configs[i] == r.value && r.value.id == configId
                  && forall j :: 0 <= j < i ==> configs[j].id != configId
  {
    if configs == [] then None
    else if configs[0].id == configId then Some(configs[0])
    else
      var r := FindConfig(configs[1..], configId);
      assert r.Some? ==> exists i :: 1 <= i < |configs| && configs[i] == r.value && r.value.id == configId
                                     && forall j :: 1 <= j < i ==> configs[j].id != configId;
      r
  }

  /** `filter(e => e.domain == domain)`: the entities of one domain, in their original order. */
  function EntitiesInDomain(entities: seq<Entity>, domain: string): (picked: seq<Entity>)
    ensures |picked| <= |entities|
    ensures forall i :: 0 <= i < |picked| ==> picked[i].domain == domain && picked[i] in entities
  {
    if entities == [] then []
    else (if entities[0].domain == domain then [entities[0]] else []) + EntitiesInDomain(entities[1..], domain)
  }

  /** A GUID as an NRQL string literal. */
  function Quote(guid: string): (q: string)
    ensures |q| == |guid| + 2 && q[0] == '\'' && q[|q| - 1] == '\''
    ensures q[1..|q| - 1] == guid
    ensures ',' in q <==> ',' in guid
  {
    "'" + guid + "'"
  }

  /** The quoted GUIDs of one domain's entities, ready to be spliced into `entityGuid in (...)`. */
  function GuidsForNrql(entities: seq<Entity>, domain: string): (guids: seq<string>)
    ensures |guids| <= |entities|
    ensures forall i :: 0 <= i < |guids| ==>
      exists e :: e in entities && e.domain == domain && guids[i] == Quote(e.guid)
  {
    var picked := EntitiesInDomain(entities, domain);
    var guids := seq(|picked|, i requires 0 <= i < |picked| => Quote(picked[i].guid));
    assert forall i :: 0 <= i < |guids| ==> picked[i] in entities && guids[i] == Quote(picked[i].guid);
    guids
  }

  /** An entity is picked exactly when it is one of the location's entities and has the domain. */
  lemma {:induction false} InDomainMembership(entities: seq<Entity>, domain: string, e: Entity)
    ensures e in EntitiesInDomain(entities, domain) <==> e in entities && e.domain == domain
  {
    if entities != [] {
      InDomainMembership(entities[1..], domain, e);
      assert entities == [entities[0]] + entities[1..];
    }
  }

  /** Filtering distributes over concatenation, so the original order is kept. */
  lemma {:induction false} InDomainConcat(a: seq<Entity>, b: seq<Entity>, domain: string)
    ensures EntitiesInDomain(a + b, domain) == EntitiesInDomain(a, domain) + EntitiesInDomain(b, domain)
  {
    if a != [] {
      assert (a + b)[1..] == a[1..] + b;
      InDomainConcat(a[1..], b, domain);
    } else {
      assert a + b == b;
    }
  }

  /** The GUID list of a concatenation is the concatenation of the GUID lists: earlier entities come first. */
  lemma GuidsConcat(a: seq<Entity>, b: seq<Entity>, domain: string)
    ensures GuidsForNrql(a + b, domain) == GuidsForNrql(a, domain) + GuidsForNrql(b, domain)
  {
    InDomainConcat(a, b, domain);
  }

  /** A quoted GUID is in a domain's list exactly when some entity of that domain has that GUID. */
  lemma GuidsMembership(entities: seq<Entity>, domain: string, q: string)
    ensures q in GuidsForNrql(entities, domain) <==>
            exists e :: e in entities && e.domain == domain && q == Quote(e.guid)
  {
    var picked := EntitiesInDomain(entities, domain);
    if q in GuidsForNrql(entities, domain) {
      var i :| 0 <= i < |picked| && GuidsForNrql(entities, domain)[i] == q;
      InDomainMembership(entities, domain, picked[i]);
    }
    if e :| e in entities && e.domain == domain && q == Quote(e.guid) {
      InDomainMembership(entities, domain, e);
      var i :| 0 <= i < |picked| && picked[i] == e;
      assert GuidsForNrql(entities, domain)[i] == q;
    }
  }

  /**
   * The two lists partition part of the entities: no entity is picked for
   * both, an entity of any other domain is picked for neither, and together
   * the lists are no longer than the entity list.
   */
  lemma {:induction false} InfraApmPartition(entities: seq<Entity>)
    ensures forall e :: e in EntitiesInDomain(entities, Infra) ==> e !in EntitiesInDomain(entities, Apm)
    ensures forall e :: e in entities && e.domain != Infra && e.domain != Apm ==>
      e !in EntitiesInDomain(entities, Infra) && e !in EntitiesInDomain(entities, Apm)
    ensures |GuidsForNrql(entities, Infra)| + |GuidsForNrql(entities, Apm)| <= |entities|
  {
    forall e | e in EntitiesInDomain(entities, Infra) || e in entities
      ensures e in EntitiesInDomain(entities, Infra) ==> e !in EntitiesInDomain(entities, Apm)
      ensures e.domain != Infra && e.domain != Apm ==>
        e !in EntitiesInDomain(entities, Infra) && e !in EntitiesInDomain(entities, Apm)
    {
      InDomainMembership(entities, Infra, e);
      InDomainMembership(entities, Apm, e);
    }
    if entities != [] {
      InfraApmPartition(entities[1..]);
    }
  }

  /** The tab a chart sits in. */
  datatype Tab = Devices | Apps

  /** The chart widget that renders a query. */
  datatype Widget = LineChart | TableChart

  /** The fixed parts of one NRQL query template. */
  datatype NrqlTemplate = NrqlTemplate(eventType: string, select: string, facet: string, timeseries: bool)

  /** One chart of the modal before its query is filled in. */
  datatype Panel = Panel(tab: Tab, widget: Widget, template: NrqlTemplate)

  /** The seven charts, in the order the modal lays them out. */
  const Panels: seq<Panel> := [
    Panel(Devices, LineChart,
          NrqlTemplate("SystemSample", "average( cpuPercent ) as 'percentCpu'", "entityGuid, hostname", true)),
    Panel(Devices, LineChart,
          NrqlTemplate("SystemSample", "average( memoryUserBytes/memoryTotalBytes ) as 'percentMemory'", "entityGuid, hostname", true)),
    Panel(Devices, LineChart,
          NrqlTemplate("SystemSample", "average( diskUsedPercent ) as 'percentDisk'", "entityGuid, hostname", true)),
    Panel(Apps, LineChart,
          NrqlTemplate("Transaction", "count(*) as 'Transactions'", "entityGuid, appName", true)),
    Panel(Apps, TableChart,
          NrqlTemplate("Transaction", "count(*) as 'Transactions'", "name, entityGuid", false)),
    Panel(Apps, LineChart,
          NrqlTemplate("Transaction", "percentage(count(*), WHERE error is true) as 'Error Rate'", "entityGuid, appName", true)),
    Panel(Apps, TableChart,
          NrqlTemplate("Transaction", "percentage(count(*), WHERE error is true) as 'Error Rate'", "entityGuid", false))
  ]

  /** The text of a query up to and including the opening parenthesis of the GUID list. */
  function NrqlHead(t: NrqlTemplate): (head: string)
    ensures |head| >= 15 + 5 + |t.eventType|
    ensures head[|head| - 15..] == "entityGuid in ("
    ensures head[..5 + |t.eventType|] == "FROM " + t.eventType
  {
    var front := "FROM " + t.eventType + " SELECT " + t.select + " WHERE ";
    var clause := "entityGuid in (";
    assert "FROM " + t.eventType + " SELECT " + t.select + " WHERE entityGuid in (" == front + clause;
    assert (front + clause)[|front + clause| - 15..] == clause;
    assert (front + clause)[..5 + |t.eventType|] == "FROM " + t.eventType;
    front + clause
  }

  /** The text of a query from the closing parenthesis of the GUID list on. */
  function NrqlTail(t: NrqlTemplate, minutes: string): (tail: string)
    ensures var since := " SINCE " + minutes + " MINUTES AGO";
      |tail| >= |since| + 1 && tail[..1] == ")" && tail[|tail| - |since|..] == since
  {
    ") FACET " + t.facet + (if t.timeseries then " TIMESERIES" else "") + " SINCE " + minutes + " MINUTES AGO"
  }

  /** A template literal with the GUID array and the minute count interpolated. */
  function Nrql(t: NrqlTemplate, guids: seq<string>, minutes: string): (q: string)
    ensures var since := " SINCE " + minutes + " MINUTES AGO";
      && |q| >= 5 + |t.eventType| + |since|
      && q[..5 + |t.eventType|] == "FROM " + t.eventType
      && q[|q| - |since|..] == since
  {
    NrqlHead(t) + JoinComma(guids) + NrqlTail(t, minutes)
  }

  /** The GUID list a tab's queries embed. */
  function DomainOf(tab: Tab): string
  {
    match tab
    case Devices => Infra
    case Apps => Apm
  }

  /** A rendered chart: its tab, widget, account and query text. */
  datatype Chart = Chart(tab: Tab, widget: Widget, accountId: int, query: string)

  /**
   * The modal's charts for a found configuration: all seven scoped to the
   * configuration's INFRA account, the Devices charts embedding only the
   * INFRA list and the Apps charts only the APM list.
   */
  function Charts(config: Config, location: Location, minutes: string): (cs: seq<Chart>)
    ensures |cs| == |Panels| == 7
    ensures forall i :: 0 <= i < |cs| ==>
      && cs[i].accountId == config.infraNrqlAccountId
      && cs[i].tab == Panels[i].tab
      && cs[i].widget == Panels[i].widget
    ensures forall i :: 0 <= i < |cs| ==>
      cs[i].query == Nrql(Panels[i].template, GuidsForNrql(location.entities, DomainOf(cs[i].tab)), minutes)
    ensures forall i :: 0 <= i < |cs| ==> (cs[i].tab == Devices <==> i < 3)
  {
    var infra := GuidsForNrql(location.entities, Infra);
    var apm := GuidsForNrql(location.entities, Apm);
    seq(|Panels|, i requires 0 <= i < |Panels| =>
      Chart(Panels[i].tab, Panels[i].widget, config.infraNrqlAccountId,
            Nrql(Panels[i].template, if Panels[i].tab == Devices then infra else apm, minutes)))
  }

  /**
   * `render`: when no configuration has the id, reading `config.entities`
   * throws; otherwise the charts of the first matching configuration.
   */
  function RenderDetail(configs: seq<Config>, configId: string, location: Location, minutes: string): (r: Result<seq<Chart>, JsError>)
    ensures r.Failure? <==> forall i :: 0 <= i < |configs| ==> configs[i].id != configId
    ensures r.Failure? ==> r.error == TypeError("entities")
    ensures r.Success? ==>
      exists i :: (0 <= i < |configs| && configs[i].id == configId
                   && (forall j :: 0 <= j < i ==> configs[j].id != configId)
                   && r.value == Charts(configs[i], location, minutes))
  {
    match FindConfig(configs, configId)
    case None => Failure(TypeError("entities"))
    case Some(config) => Success(Charts(config, location, minutes))
  }

  /** The line charts are exactly the panels whose template asks for a time series. */
  lemma LineChartsAreTimeseries()
    ensures forall i :: 0 <= i < |Panels| ==> (Panels[i].widget == LineChart <==> Panels[i].template.timeseries)
  {
  }

  /**
   * Exactly the line charts carry a TIMESERIES clause: a chart is a line
   * chart when, and only when, its query closes with
   * `FACET <facet> TIMESERIES SINCE <minutes> MINUTES AGO`; the two table
   * charts close with `FACET <facet> SINCE <minutes> MINUTES AGO`.
   */
  lemma TimeseriesOnLineCharts(config: Config, location: Location, minutes: string, i: nat)
    requires i < 7
    ensures var c := Charts(config, location, minutes)[i];
      var t := Panels[i].template;
      var front := NrqlHead(t) + JoinComma(GuidsForNrql(location.entities, DomainOf(c.tab))) + ") FACET " + t.facet;
      var since := " SINCE " + minutes + " MINUTES AGO";
      && (c.widget == LineChart <==> c.query == front + " TIMESERIES" + since)
      && (c.widget == TableChart <==> c.query == front + since)
  {
    var c := Charts(config, location, minutes)[i];
    var t := Panels[i].template;
    var guids := GuidsForNrql(location.entities, DomainOf(c.tab));
    assert c.query == Nrql(t, guids, minutes);
    TimeseriesClause(t, guids, minutes);
    LineChartsAreTimeseries();
  }

  /** A template's query carries the TIMESERIES clause exactly when the template asks for a time series. */
  lemma TimeseriesClause(t: NrqlTemplate, guids: seq<string>, minutes: string)
    ensures var front := NrqlHead(t) + JoinComma(guids) + ") FACET " + t.facet;
      var since := " SINCE " + minutes + " MINUTES AGO";
      && (t.timeseries <==> Nrql(t, guids, minutes) == front + " TIMESERIES" + since)
      && (!t.timeseries <==> Nrql(t, guids, minutes) == front + since)
  {
    var front := NrqlHead(t) + JoinComma(guids) + ") FACET " + t.facet;
    var since := " SINCE " + minutes + " MINUTES AGO";
    var clause := if t.timeseries then " TIMESERIES" else "";
    assert Nrql(t, guids, minutes) == front + clause + since;
    assert |front + " TIMESERIES" + since| == |front + since| + 11;
    if !t.timeseries {
      assert front + clause == front;
    }
  }

  /** Every query ends with the same `SINCE <minutes> MINUTES AGO` clause. */
  lemma SharedSinceClause(config: Config, location: Location, minutes: string, i: nat)
    requires i < 7
    ensures var q := Charts(config, location, minutes)[i].query;
      var since := " SINCE " + minutes + " MINUTES AGO";
      |q| >= |since| && q[|q| - |since|..] == since
  {
    var t := Panels[i].template;
    var guids := GuidsForNrql(location.entities, DomainOf(Panels[i].tab));
    var since := " SINCE " + minutes + " MINUTES AGO";
    var front := NrqlHead(t) + JoinComma(guids) + ") FACET " + t.facet + (if t.timeseries then " TIMESERIES" else "");
    assert Nrql(t, guids, minutes) == front + since;
  }

  /** A query is its template's head, then the joined GUID list, then its tail. */
  lemma NrqlSlices(t: NrqlTemplate, guids: seq<string>, minutes: string)
    ensures var q := Nrql(t, guids, minutes);
      var head := NrqlHead(t);
      var tail := NrqlTail(t, minutes);
      && |head| + |tail| <= |q|
      && q[..|head|] == head && q[|q| - |tail|..] == tail
      && q[|head|..|q| - |tail|] == JoinComma(guids)
  {
    var head := NrqlHead(t);
    var body := JoinComma(guids);
    var tail := NrqlTail(t, minutes);
    var q := head + body + tail;
    assert q[..|head|] == head;
    assert q[|q| - |tail|..] == tail;
    assert q[|head|..|q| - |tail|] == body;
  }

  /** With no GUIDs the list clause reads `entityGuid in ()`. */
  lemma EmptyListClause(t: NrqlTemplate, minutes: string)
    ensures var head := NrqlHead(t);
      |head| >= 15 && Nrql(t, [], minutes)[|head| - 15..|head| + 1] == "entityGuid in ()"
  {
    var head := NrqlHead(t);
    var tail := NrqlTail(t, minutes);
    assert Nrql(t, [], minutes) == head + tail;
    SliceAcross(head, tail, 15);
    assert "entityGuid in (" + ")" == "entityGuid in ()";
  }

  /** The last `k` characters of `a` followed by the first of `b`, read out of `a + b`. */
  lemma SliceAcross(a: string, b: string, k: nat)
    requires k <= |a| && 1 <= |b|
    ensures (a + b)[|a| - k..|a| + 1] == a[|a| - k..] + b[..1]
  {
  }

  /**
   * The GUID list can be read back from a query: the text between the
   * template's head and tail is the list, and when the list is not empty and
   * no GUID holds a comma, splitting it at commas gives the domain's quoted
   * GUIDs, in order. An empty list leaves `entityGuid in ()`.
   */
  lemma GuidListReadBack(config: Config, location: Location, minutes: string, i: nat)
    requires i < 7
    ensures var q := Charts(config, location, minutes)[i].query;
      var head := NrqlHead(Panels[i].template);
      var tail := NrqlTail(Panels[i].template, minutes);
      var guids := GuidsForNrql(location.entities, DomainOf(Panels[i].tab));
      && |head| + |tail| <= |q|
      && q[..|head|] == head && q[|q| - |tail|..] == tail
      && q[|head|..|q| - |tail|] == JoinComma(guids)
      && (guids == [] ==> |head| >= 15 && q[|head| - 15..|head| + 1] == "entityGuid in ()")
      && (guids != [] && (forall e :: e in location.entities ==> ',' !in e.guid) ==>
            SplitOn(q[|head|..|q| - |tail|], ',') == guids)
  {
    var t := Panels[i].template;
    var domain := DomainOf(Panels[i].tab);
    var guids := GuidsForNrql(location.entities, domain);
    assert Charts(config, location, minutes)[i].query == Nrql(t, guids, minutes);
    NrqlSlices(t, guids, minutes);
    if guids == [] {
      EmptyListClause(t, minutes);
    }
    if guids != [] && (forall e :: e in location.entities ==> ',' !in e.guid) {
      var picked := EntitiesInDomain(location.entities, domain);
      forall k | 0 <= k < |guids| ensures ',' !in guids[k] {
        InDomainMembership(location.entities, domain, picked[k]);
        assert guids[k] == "'" + picked[k].guid + "'";
      }
      SplitJoin(guids);
    }
  }

  /**
   * The Devices charts depend only on the INFRA entities and the Apps charts
   * only on the APM entities: two locations that agree on one domain's
   * entities get the same queries in that domain's tab.
   */
  lemma TabUsesOnlyItsDomain(config: Config, l1: Location, l2: Location, minutes: string, i: nat)
    requires i < 7
    requires EntitiesInDomain(l1.entities, DomainOf(Panels[i].tab)) == EntitiesInDomain(l2.entities, DomainOf(Panels[i].tab))
    ensures Charts(config, l1, minutes)[i] == Charts(config, l2, minutes)[i]
  {
  }
}
