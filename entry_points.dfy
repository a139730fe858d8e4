/**
 * How the two entry points relate: the report agent and the dashboard choose
 * readers by different rules, and the dashboard's built-in sample is what the
 * agent's totals would see.
 */
module EntryPoints {
  import opened Text
  import opened Formats
  import Agent
  import App

  /** Wherever the agent chooses a reader, the dashboard chooses the same one. */
  lemma DashboardAcceptsWhatAgentAccepts(path: string)
    requires Agent.LoadFormat(path) != Unsupported
    ensures App.UploadFormat(path) == Agent.LoadFormat(path)
  {
    App.UploadFormatByName(path);
  }

  /**
   * The converse fails: an `.xls` or `.json` file, or a name that is just
   * `csv`, has a reader in the dashboard but is refused by the agent.
   */
  lemma DashboardAcceptsXls()
    ensures App.UploadFormat("ESG.xls") == Excel && Agent.LoadFormat("ESG.xls") == Unsupported
  {
    assert App.FileType("ESG.xls") == "xls" by { LastFieldAfter("ESG", '.', "xls"); }
  }

  lemma DashboardAcceptsJson()
    ensures App.UploadFormat("ESG.json") == Json && Agent.LoadFormat("ESG.json") == Unsupported
  {
    assert App.FileType("ESG.json") == "json" by { LastFieldAfter("ESG", '.', "json"); }
  }

  lemma DashboardAcceptsBareCsv()
    ensures App.UploadFormat("csv") == Csv && Agent.LoadFormat("csv") == Unsupported
  {
  }

  /** The agent's totals over the dashboard's sample table. */
  lemma SampleTotals()
    ensures Agent.Total(App.SampleTable, "Emissions_tCO2") == 3280
    ensures Agent.Total(App.SampleTable, "Energy_kWh") == 41000
    ensures Agent.Total(App.SampleTable, "Waste_kg") == 900
  {
  }
}
