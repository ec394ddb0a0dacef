/** The write path end to end: the report the plugin's `outlet` sends is
    exactly what the ingestion service's counters absorb. */
module Pipeline {
  import opened Wrappers
  import Ingestion
  import Filter

  /** The plugin posts its report to the write endpoint under its configured
      base URL. Posted with its configured token, the report is accepted
      exactly when that token is the service's secret; when accepted, the
      model entry gains one request and at least one token, and the user's
      and the model's CO2 totals both gain the message's CO2. */
  lemma OutletReportIsCounted(s: Ingestion.Registry, authToken: string, valves: Filter.Valves,
                              cache: Filter.WeeklyCache, b: Filter.Body, userId: string,
                              co2: real, updateWeek: string, readWeek: string, render: Filter.Note -> string)
    requires valves.apiToken == authToken ==> co2 >= 0.0
    ensures var d := Filter.Outlet(valves, cache, b, Some(userId), co2, updateWeek, readWeek, render).sent.value;
      var step := Ingestion.ApiRequest(s, authToken, d.credential, d.report);
      var mk := Ingestion.ModelLabels(Filter.ExtractModel(b), valves.org);
      var uk := Ingestion.UserLabels(userId, valves.org);
      && d.url == valves.apiUrl + Ingestion.RequestPath
      && (step.reply.Success? <==> valves.apiToken == authToken)
      && (step.reply.Failure? ==> step.registry == s)
      && (step.reply.Success? ==>
        && Ingestion.Count(step.registry.requestsByModel, mk) == Ingestion.Count(s.requestsByModel, mk) + 1
        && Ingestion.Count(step.registry.tokenCountByModel, mk) >= Ingestion.Count(s.tokenCountByModel, mk) + 1
        && Ingestion.Amount(step.registry.co2EmissionByUser, uk) == Ingestion.Amount(s.co2EmissionByUser, uk) + co2
        && Ingestion.Amount(step.registry.co2EmissionByModel, mk) == Ingestion.Amount(s.co2EmissionByModel, mk) + co2)
  {
  }

  /** Out of the box the plugin's default token is the service's default
      secret, so its reports are accepted once they reach the service. */
  lemma DefaultConfigurationAccepted(s: Ingestion.Registry, cache: Filter.WeeklyCache, b: Filter.Body,
                                     userId: string, co2: real, updateWeek: string, readWeek: string, render: Filter.Note -> string)
    requires co2 >= 0.0
    ensures var d := Filter.Outlet(Filter.DefaultValves, cache, b, Some(userId), co2, updateWeek, readWeek, render).sent.value;
      Ingestion.ApiRequest(s, Ingestion.DefaultAuthToken, d.credential, d.report).reply.Success?
  {
    OutletReportIsCounted(s, Ingestion.DefaultAuthToken, Filter.DefaultValves, cache, b, userId, co2, updateWeek, readWeek, render);
  }
}
