/** Records exchanged between the promotion card and the platform backend. */
module AppsCommon {
  import opened Properties

  /** One provider's deployment settings, as the card assembles them (`AWSProviderParams`). */
  datatype ProviderRecord = ProviderRecord(
    environmentName: string,
    envRequiresManualApproval: bool,
    providerName: string,
    awsAccount: string,
    awsRegion: string,
    prefix: string,
    assumedRoleArn: string,
    /** The parameter object's entries, in its key order. */
    parameters: seq<Entry>)

  /** The promotion request body (`AppPromoParams`). */
  datatype AppPromoParams = AppPromoParams(
    appName: string,
    envName: string,
    envRequiresManualApproval: bool,
    gitHost: string,
    gitJobId: string,
    gitProjectGroup: string,
    gitRepoName: string,
    gitAdminSecret: string,
    providers: seq<ProviderRecord>)

  datatype Policy = Policy(policyFileName: string, policyContent: string)

  /** The bind / unbind request body (`BindResourceParams`). */
  datatype BindResourceParams = BindResourceParams(
    envName: string,
    providerName: string,
    gitHost: string,
    gitProjectGroup: string,
    gitRepoName: string,
    resourceName: string,
    resourceEntityRef: string,
    policies: seq<Policy>)

  /** The `status` field: the strings "SUCCESS" and "FAILURE". */
  datatype Status = Success | Failure

  /** `{status, message}` as every backend operation reports it. */
  datatype Outcome = Outcome(status: Status, message: string)
}
