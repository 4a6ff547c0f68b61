/** The Terraform resource for an AWS Secrets Manager configuration
    (internal/provider/aws_secrets_manager_resource.go): its Create is an
    upsert, its Read removes the resource when the configuration is gone and
    otherwise refreshes only the name and the authentication type, and every
    call to the appliance is skipped when a CA path is configured.

    Each CRUD method takes the appliance's answers as parameters (the listing
    for a lookup, the answer to the write) and returns the requests it sent,
    in order, so that its contract can say which calls happen. */
module SecretsManagerResource {
  import opened Http
  import opened GdpClient
  import opened SecretsManager

  /** AWSSecretsManagerResourceModel; a null ca_path is None, and every other
      attribute is held as its string value. */
  datatype ResourceModel = ResourceModel(
    accessToken: string,
    name: string,
    authType: string,
    accessKeyID: string,
    secretAccessKey: string,
    secretKeyUsername: string,
    secretKeyPassword: string,
    id: string,
    caPath: Option<string>)

  /** The client record built from the plan or state. */
  function ConfigOf(data: ResourceModel): (config: AWSSecretsManagerConfig)
    ensures config.name == data.name && config.authType == data.authType
    ensures config.accessKeyID == data.accessKeyID && config.secretAccessKey == data.secretAccessKey
    ensures config.secretKeyUsername == data.secretKeyUsername && config.secretKeyPassword == data.secretKeyPassword
  {
    NewAWSSecretsManagerConfig(data.name, data.authType, data.accessKeyID, data.secretAccessKey,
                               data.secretKeyUsername, data.secretKeyPassword)
  }

  /** The state Create stores: the plan, with its name as the id. */
  function CreatedState(plan: ResourceModel): (data: ResourceModel)
    ensures data.id == data.name == plan.name
    ensures data == plan.(id := plan.name)
  {
    plan.(id := plan.name)
  }

  /** The state Read stores for a configuration found on the appliance: the
      prior state with its name and authentication type taken from the
      appliance, and every secret left as it was. */
  function RefreshedState(prior: ResourceModel, found: AWSSecretsManagerConfig): (data: ResourceModel)
    ensures data.name == found.name && data.authType == found.authType
    ensures data.(name := prior.name, authType := prior.authType) == prior
  {
    prior.(name := found.name, authType := found.authType)
  }

  /** An error diagnostic: its summary and the error it reports. */
  datatype Diagnostic = Diagnostic(summary: string, cause: Error)

  /** The part of a CRUD response the resource writes: the state (None once
      removed) and the diagnostics. */
  class CrudResponse {
    var state: Option<ResourceModel>
    var diagnostics: seq<Diagnostic>

    constructor (state: Option<ResourceModel>)
      ensures this.state == state && diagnostics == []
    {
      this.state := state;
      diagnostics := [];
    }

    method AddError(summary: string, cause: Error)
      modifies this
      ensures diagnostics == old(diagnostics) + [Diagnostic(summary, cause)]
      ensures state == old(state)
    {
      diagnostics := diagnostics + [Diagnostic(summary, cause)];
    }

    method SetState(data: ResourceModel)
      modifies this
      ensures state == Some(data)
      ensures diagnostics == old(diagnostics)
    {
      state := Some(data);
    }

    method RemoveResource()
      modifies this
      ensures state == None
      ensures diagnostics == old(diagnostics)
    {
      state := None;
    }
  }

  class AWSSecretsManagerResource {
    /** The client the provider configured the resource with. */
    const client: Client

    constructor (client: Client)
      ensures this.client == client
    {
      this.client := client;
    }

    /** Create: with no CA path, look the name up and update the existing
        configuration or create a new one; stop with a diagnostic at the
        first error. With a CA path no call is made. Unless it stopped, the
        plan is stored with its name as the id. */
    method Create(plan: ResourceModel, listing: Response<seq<ServerRecord>>, write: Response<()>,
                  resp: CrudResponse) returns (calls: seq<Request>)
      modifies resp
      ensures plan.caPath.Some? ==> calls == [] && resp.state == Some(CreatedState(plan))
      ensures plan.caPath.Some? ==> resp.diagnostics == old(resp.diagnostics)
      ensures plan.caPath.None? && Lookup(listing, plan.name).Failure? ==>
                calls == [ListRequest(NewInsecureClient(client), plan.accessToken)] &&
                resp.state == old(resp.state) &&
                resp.diagnostics == old(resp.diagnostics) +
                  [Diagnostic("Error checking for existing AWS Secrets Manager configuration", Lookup(listing, plan.name).error)]
      ensures plan.caPath.None? && Lookup(listing, plan.name).Success? ==>
                calls == [ListRequest(NewInsecureClient(client), plan.accessToken),
                          WriteRequest(if Lookup(listing, plan.name).value.Some? then "PUT" else "POST",
                                       NewInsecureClient(client), plan.accessToken, ConfigOf(plan))]
      ensures plan.caPath.None? && Lookup(listing, plan.name).Success? && StatusOutcome(write, WriteStatuses).Ok? ==>
                resp.state == Some(CreatedState(plan)) && resp.diagnostics == old(resp.diagnostics)
      ensures plan.caPath.None? && Lookup(listing, plan.name).Success? && StatusOutcome(write, WriteStatuses).Err? ==>
                resp.state == old(resp.state) &&
                resp.diagnostics == old(resp.diagnostics) +
                  [Diagnostic(if Lookup(listing, plan.name).value.Some?
                              then "Error updating existing AWS Secrets Manager configuration"
                              else "Error creating AWS Secrets Manager configuration",
                              StatusOutcome(write, WriteStatuses).error)]
    {
      var data := plan;
      var config := NewAWSSecretsManagerConfig(data.name, data.authType, data.accessKeyID, data.secretAccessKey,
                                               data.secretKeyUsername, data.secretKeyPassword);
      calls := [];
      if data.caPath.None? {
        var c := NewInsecureClient(client);
        var lookupSent, existing := GetAWSSecretsManager(c, data.accessToken, data.name, listing);
        calls := calls + [lookupSent];
        if existing.Failure? {
          resp.AddError("Error checking for existing AWS Secrets Manager configuration", existing.error);
          return;
        }
        if existing.value.Some? {
          var updateSent, err := UpdateAWSSecretsManager(c, data.accessToken, config, write);
          calls := calls + [updateSent];
          if err.Err? {
            resp.AddError("Error updating existing AWS Secrets Manager configuration", err.error);
            return;
          }
        } else {
          var createSent, err := CreateAWSSecretsManager(c, data.accessToken, config, write);
          calls := calls + [createSent];
          if err.Err? {
            resp.AddError("Error creating AWS Secrets Manager configuration", err.error);
            return;
          }
        }
      }
      data := data.(id := data.name);
      resp.SetState(data);
    }

    /** Read: with no CA path, look the name up; a lookup error leaves the
        state as it was, a missing configuration removes the resource, and a
        found one refreshes the name and the authentication type. With a CA
        path the prior state is stored unchanged. */
    method Read(prior: ResourceModel, listing: Response<seq<ServerRecord>>, resp: CrudResponse)
      returns (calls: seq<Request>)
      modifies resp
      ensures prior.caPath.Some? ==> calls == [] && resp.state == Some(prior)
      ensures prior.caPath.None? ==> calls == [ListRequest(NewInsecureClient(client), prior.accessToken)]
      ensures prior.caPath.None? && Lookup(listing, prior.name).Failure? ==>
                resp.state == old(resp.state) &&
                resp.diagnostics == old(resp.diagnostics) +
                  [Diagnostic("Error reading AWS Secrets Manager configuration", Lookup(listing, prior.name).error)]
      ensures prior.caPath.None? && Lookup(listing, prior.name).Success? ==>
                resp.diagnostics == old(resp.diagnostics) &&
                (resp.state.None? <==> Lookup(listing, prior.name).value.None?)
      ensures prior.caPath.None? && Lookup(listing, prior.name).Success? && Lookup(listing, prior.name).value.Some? ==>
                resp.state == Some(RefreshedState(prior, Lookup(listing, prior.name).value.value))
      ensures prior.caPath.Some? ==> resp.diagnostics == old(resp.diagnostics)
    {
      var data := prior;
      calls := [];
      if data.caPath.None? {
        var c := NewInsecureClient(client);
        var lookupSent, config := GetAWSSecretsManager(c, data.accessToken, data.name, listing);
        calls := calls + [lookupSent];
        if config.Failure? {
          resp.AddError("Error reading AWS Secrets Manager configuration", config.error);
          return;
        }
        if config.value.None? {
          resp.RemoveResource();
          return;
        }
        data := data.(name := config.value.value.name);
        data := data.(authType := config.value.value.authType);
      }
      resp.SetState(data);
    }

    /** Update: with no CA path, send the plan as an update, with no check
        that the configuration exists; unless that fails, store the plan. */
    method Update(plan: ResourceModel, write: Response<()>, resp: CrudResponse) returns (calls: seq<Request>)
      modifies resp
      ensures plan.caPath.Some? ==> calls == [] && resp.state == Some(plan)
      ensures plan.caPath.None? ==> calls == [WriteRequest("PUT", NewInsecureClient(client), plan.accessToken, ConfigOf(plan))]
      ensures plan.caPath.None? && StatusOutcome(write, WriteStatuses).Err? ==>
                resp.state == old(resp.state) &&
                resp.diagnostics == old(resp.diagnostics) +
                  [Diagnostic("Error updating AWS Secrets Manager configuration", StatusOutcome(write, WriteStatuses).error)]
      ensures plan.caPath.Some? || StatusOutcome(write, WriteStatuses).Ok? ==>
                resp.state == Some(plan) && resp.diagnostics == old(resp.diagnostics)
    {
      var data := plan;
      var config := NewAWSSecretsManagerConfig(data.name, data.authType, data.accessKeyID, data.secretAccessKey,
                                               data.secretKeyUsername, data.secretKeyPassword);
      calls := [];
      if data.caPath.None? {
        var c := NewInsecureClient(client);
        var updateSent, err := UpdateAWSSecretsManager(c, data.accessToken, config, write);
        calls := calls + [updateSent];
        if err.Err? {
          resp.AddError("Error updating AWS Secrets Manager configuration", err.error);
          return;
        }
      }
      resp.SetState(data);
    }

    /** Delete: with no CA path, delete the configuration by name and report
        a failure; the state itself is left to the framework. */
    method Delete(prior: ResourceModel, answer: Response<()>, resp: CrudResponse) returns (calls: seq<Request>)
      modifies resp
      ensures resp.state == old(resp.state)
      ensures prior.caPath.Some? ==> calls == [] && resp.diagnostics == old(resp.diagnostics)
      ensures prior.caPath.None? ==> calls == [DeleteRequest(NewInsecureClient(client), prior.accessToken, prior.name)]
      ensures prior.caPath.None? ==>
                resp.diagnostics == old(resp.diagnostics) +
                  (if StatusOutcome(answer, DeleteStatuses).Ok? then []
                   else [Diagnostic("Error deleting AWS Secrets Manager configuration", StatusOutcome(answer, DeleteStatuses).error)])
    {
      var data := prior;
      calls := [];
      if data.caPath.None? {
        var c := NewInsecureClient(client);
        var deleteSent, err := DeleteAWSSecretsManager(c, data.accessToken, data.name, answer);
        calls := calls + [deleteSent];
        if err.Err? {
          resp.AddError("Error deleting AWS Secrets Manager configuration", err.error);
          return;
        }
      }
    }
  }
}
