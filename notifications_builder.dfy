/** The VA notifications payload and its builder
    (internal/gdp/notificationsDataSourceBuilder.go). As with the datasource
    builder, every setter writes one field of the one payload object and
    returns the builder. */
module NotificationsBuilder {
  import opened Http

  class ConfigureNotificationsPayload {
    var datasourceName: string
    var notificationType: string
    /** None is the nil slice, which encodes as null. */
    var recipients: Option<seq<string>>
    var severity: string
    var enabled: bool

    /** The zero value of the struct: empty strings, nil recipients, false. */
    constructor ()
      ensures datasourceName == "" && notificationType == "" && recipients == None && severity == "" && !enabled
    {
      datasourceName := "";
      notificationType := "";
      recipients := None;
      severity := "";
      enabled := false;
    }
  }

  /** A string slice in JSON: null for nil, otherwise the array of its
      elements in order. */
  function RecipientsJson(recipients: Option<seq<string>>): (j: Json)
    ensures recipients.None? ==> j == JNull
    ensures recipients.Some? ==> j.JArray? && |j.items| == |recipients.value|
    ensures recipients.Some? ==> forall i :: 0 <= i < |recipients.value| ==> j.items[i] == JString(recipients.value[i])
  {
    match recipients
    case None => JNull
    case Some(rs) => JArray(seq(|rs|, i requires 0 <= i < |rs| => JString(rs[i])))
  }

  class ConfigureNotificationsPayloadBuilder {
    const payload: ConfigureNotificationsPayload

    /** NewConfigureNotificationsPayloadBuilder: a fresh zero payload. */
    constructor ()
      ensures fresh(payload)
      ensures payload.datasourceName == "" && payload.notificationType == "" && payload.recipients == None
      ensures payload.severity == "" && !payload.enabled
    {
      payload := new ConfigureNotificationsPayload();
    }

    method DatasourceName(name: string) returns (b: ConfigureNotificationsPayloadBuilder)
      modifies payload
      ensures b == this
      ensures payload.datasourceName == name
      ensures payload.notificationType == old(payload.notificationType) && payload.recipients == old(payload.recipients)
      ensures payload.severity == old(payload.severity) && payload.enabled == old(payload.enabled)
    {
      payload.datasourceName := name;
      b := this;
    }

    method NotificationType(name: string) returns (b: ConfigureNotificationsPayloadBuilder)
      modifies payload
      ensures b == this
      ensures payload.notificationType == name
      ensures payload.datasourceName == old(payload.datasourceName) && payload.recipients == old(payload.recipients)
      ensures payload.severity == old(payload.severity) && payload.enabled == old(payload.enabled)
    {
      payload.notificationType := name;
      b := this;
    }

    /** Stores the slice as given: order, duplicates and nil-ness are kept. */
    method Recipients(recipients: Option<seq<string>>) returns (b: ConfigureNotificationsPayloadBuilder)
      modifies payload
      ensures b == this
      ensures payload.recipients == recipients
      ensures payload.datasourceName == old(payload.datasourceName) && payload.notificationType == old(payload.notificationType)
      ensures payload.severity == old(payload.severity) && payload.enabled == old(payload.enabled)
    {
      payload.recipients := recipients;
      b := this;
    }

    method Severity(severity: string) returns (b: ConfigureNotificationsPayloadBuilder)
      modifies payload
      ensures b == this
      ensures payload.severity == severity
      ensures payload.datasourceName == old(payload.datasourceName) && payload.notificationType == old(payload.notificationType)
      ensures payload.recipients == old(payload.recipients) && payload.enabled == old(payload.enabled)
    {
      payload.severity := severity;
      b := this;
    }

    method Enabled(enabled: bool) returns (b: ConfigureNotificationsPayloadBuilder)
      modifies payload
      ensures b == this
      ensures payload.enabled == enabled
      ensures payload.datasourceName == old(payload.datasourceName) && payload.notificationType == old(payload.notificationType)
      ensures payload.recipients == old(payload.recipients) && payload.severity == old(payload.severity)
    {
      payload.enabled := enabled;
      b := this;
    }

    /** Build: the payload's current fields as the JSON object
        {datasource_name, notification_type, recipients, severity, enabled}. */
    function Build(): (j: Json)
      reads payload
      ensures j.JObject? && Keys(j) == ["datasource_name", "notification_type", "recipients", "severity", "enabled"]
      ensures Member(j, "datasource_name") == Some(JString(payload.datasourceName))
      ensures Member(j, "notification_type") == Some(JString(payload.notificationType))
      ensures Member(j, "recipients") == Some(RecipientsJson(payload.recipients))
      ensures Member(j, "severity") == Some(JString(payload.severity))
      ensures Member(j, "enabled") == Some(JBool(payload.enabled))
    {
      var j := JObject([("datasource_name", JString(payload.datasourceName)),
                        ("notification_type", JString(payload.notificationType)),
                        ("recipients", RecipientsJson(payload.recipients)),
                        ("severity", JString(payload.severity)),
                        ("enabled", JBool(payload.enabled))]);
      MemberAt(j, 0); MemberAt(j, 1); MemberAt(j, 2); MemberAt(j, 3); MemberAt(j, 4);
      j
    }
  }

  /** The chain the VA notifications resource runs: name, type, recipients,
      severity, then Enabled(true), then Build. */
  method BuildVANotificationsPayload(name: string, notificationType: string, recipients: Option<seq<string>>,
                                     severity: string) returns (j: Json)
    ensures Member(j, "datasource_name") == Some(JString(name))
    ensures Member(j, "notification_type") == Some(JString(notificationType))
    ensures Member(j, "recipients") == Some(RecipientsJson(recipients))
    ensures Member(j, "severity") == Some(JString(severity))
    ensures Member(j, "enabled") == Some(JBool(true))
  {
    var b := new ConfigureNotificationsPayloadBuilder();
    b := b.DatasourceName(name);
    b := b.NotificationType(notificationType);
    b := b.Recipients(recipients);
    b := b.Severity(severity);
    b := b.Enabled(true);
    j := b.Build();
  }
}
