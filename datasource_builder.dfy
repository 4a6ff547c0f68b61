/** The VA datasource configuration payload and its builder
    (internal/gdp/configureDataSourceBuilder.go). The builder holds a pointer
    to one payload object; every setter writes one field of that object and
    returns the builder itself, so a chain of calls fills one payload. */
module DatasourceBuilder {
  import opened Http

  /** VASchedule is a value struct embedded in the payload. */
  datatype VASchedule = VASchedule(frequency: string, day: string, time: string)

  class ConfigureDatasourcePayload {
    var datasourceName: string
    var schedule: VASchedule
    var enabled: bool

    /** The zero value of the struct. */
    constructor ()
      ensures datasourceName == "" && schedule == VASchedule("", "", "") && !enabled
    {
      datasourceName := "";
      schedule := VASchedule("", "", "");
      enabled := false;
    }
  }

  function ScheduleJson(s: VASchedule): (j: Json) {
    JObject([("frequency", JString(s.frequency)), ("day", JString(s.day)), ("time", JString(s.time))])
  }

  class ConfigureDatasourcePayloadBuilder {
    const payload: ConfigureDatasourcePayload

    /** NewConfigureDatasourcePayloadBuilder: a fresh payload with Enabled
        false and every string empty. */
    constructor ()
      ensures fresh(payload)
      ensures payload.datasourceName == "" && payload.schedule == VASchedule("", "", "") && !payload.enabled
    {
      payload := new ConfigureDatasourcePayload();
    }

    method DatasourceName(name: string) returns (b: ConfigureDatasourcePayloadBuilder)
      modifies payload
      ensures b == this
      ensures payload.datasourceName == name
      ensures payload.schedule == old(payload.schedule) && payload.enabled == old(payload.enabled)
    {
      payload.datasourceName := name;
      b := this;
    }

    method Enabled(enabled: bool) returns (b: ConfigureDatasourcePayloadBuilder)
      modifies payload
      ensures b == this
      ensures payload.enabled == enabled
      ensures payload.datasourceName == old(payload.datasourceName) && payload.schedule == old(payload.schedule)
    {
      payload.enabled := enabled;
      b := this;
    }

    method Frequency(frequency: string) returns (b: ConfigureDatasourcePayloadBuilder)
      modifies payload
      ensures b == this
      ensures payload.schedule == old(payload.schedule).(frequency := frequency)
      ensures payload.datasourceName == old(payload.datasourceName) && payload.enabled == old(payload.enabled)
    {
      payload.schedule := payload.schedule.(frequency := frequency);
      b := this;
    }

    method Day(day: string) returns (b: ConfigureDatasourcePayloadBuilder)
      modifies payload
      ensures b == this
      ensures payload.schedule == old(payload.schedule).(day := day)
      ensures payload.datasourceName == old(payload.datasourceName) && payload.enabled == old(payload.enabled)
    {
      payload.schedule := payload.schedule.(day := day);
      b := this;
    }

    method Time(time: string) returns (b: ConfigureDatasourcePayloadBuilder)
      modifies payload
      ensures b == this
      ensures payload.schedule == old(payload.schedule).(time := time)
      ensures payload.datasourceName == old(payload.datasourceName) && payload.enabled == old(payload.enabled)
    {
      payload.schedule := payload.schedule.(time := time);
      b := this;
    }

    /** Build: the payload's current fields as the JSON object
        {datasource_name, schedule{frequency, day, time}, enabled}. */
    function Build(): (j: Json)
      reads payload
      ensures j.JObject? && Keys(j) == ["datasource_name", "schedule", "enabled"]
      ensures Member(j, "datasource_name") == Some(JString(payload.datasourceName))
      ensures Member(j, "schedule") == Some(ScheduleJson(payload.schedule))
      ensures Member(j, "enabled") == Some(JBool(payload.enabled))
    {
      var j := JObject([("datasource_name", JString(payload.datasourceName)),
                        ("schedule", ScheduleJson(payload.schedule)),
                        ("enabled", JBool(payload.enabled))]);
      MemberAt(j, 0); MemberAt(j, 1); MemberAt(j, 2);
      j
    }
  }

  /** The chain the VA datasource configuration resource runs: name,
      frequency, day, time, then Enabled(true), then Build. */
  method BuildVAConfigPayload(name: string, frequency: string, day: string, time: string) returns (j: Json)
    ensures Member(j, "datasource_name") == Some(JString(name))
    ensures Member(j, "schedule") == Some(ScheduleJson(VASchedule(frequency, day, time)))
    ensures Member(j, "enabled") == Some(JBool(true))
  {
    var b := new ConfigureDatasourcePayloadBuilder();
    b := b.DatasourceName(name);
    b := b.Frequency(frequency);
    b := b.Day(day);
    b := b.Time(time);
    b := b.Enabled(true);
    j := b.Build();
  }

  /** Two writes to one field through the same builder: the second wins and
      the other fields keep their zero values. */
  method LastWriteWins(first: string, second: string) returns (j: Json)
    ensures Member(j, "datasource_name") == Some(JString(second))
    ensures Member(j, "schedule") == Some(ScheduleJson(VASchedule("", "", "")))
    ensures Member(j, "enabled") == Some(JBool(false))
  {
    var b := new ConfigureDatasourcePayloadBuilder();
    var b1 := b.DatasourceName(first);
    var b2 := b1.DatasourceName(second);
    j := b2.Build();
  }
}
