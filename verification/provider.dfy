/**
  The values exchanged with the cloud provider. Every remote call of the mapper
  (organization listing, role assumption, zone description) is an abstract input:
  listing replies arrive as a sequence in call order, and role assumption and zone
  description are pure functions of their request.
 */
module Provider {
  import opened Outcomes

  /** One organization account as listed; the mapper only reads its `Id`. */
  datatype Account = Account(id: string)

  /** One page of the organization listing. */
  datatype Page = Page(accounts: seq<Account>, nextToken: Option<string>)

  /** What one `list_accounts` call produced: a page, or a raised exception. */
  datatype ListReply = Listed(page: Page) | ListError(message: string)

  /** The arguments of one `list_accounts` call. */
  datatype ListRequest = ListRequest(maxResults: nat, nextToken: Option<string>)

  /** The arguments of the `assume_role` call. */
  datatype RoleRequest = RoleRequest(roleArn: string, sessionName: string)

  /** The temporary credentials a granted role assumption returns. */
  datatype Credentials = Credentials(accessKeyId: string, secretAccessKey: string, sessionToken: string)

  /** What the `assume_role` call produced. */
  datatype RoleReply = Granted(credentials: Credentials) | Refused(message: string)

  /** One record of `AvailabilityZones`. */
  datatype Zone = Zone(zoneName: string, zoneId: string)

  /**
    What one region's zone query produced: the zone records, a raised `ClientError`
    (caught by the region loop), or any other exception raised while opening the
    regional client or describing its zones (not caught).
   */
  datatype ZoneReply = Described(zones: seq<Zone>) | ZoneError(message: string) | ZoneFault(message: string)

  /**
    The remote services seen by one run: role assumption as a function of the
    request, zone description as a function of the session credentials and region.
   */
  datatype Cloud = Cloud(
    assumeRole: RoleRequest -> RoleReply,
    describeZones: (Credentials, string) -> ZoneReply)

  /** The errors that end a run. */
  datatype RunError =
    | ListingFailed(message: string)                   // a `list_accounts` call raised
    | RepliesExhausted                                 // the provider kept announcing more pages
    | RoleRefused(message: string)                     // `assume_role` raised; re-raised unchanged
    | ResponseUnbound(region: string)                  // the first region's zone query raised a `ClientError`
    | ZoneQueryAborted(region: string, message: string) // a region's zone query raised anything else
}
