# Promotion and resource binding for AWS apps in Backstage

This project models, in Dafny, two decision components of the AWS Apps
plugins for Backstage.

**Backend: `AwsAppsPlatformApi`** (`aws_platform.dfy`). Promoting an
application, or binding a resource to it, works through Git. The component
does four things:
- it finds the application's repository among the hosting API's search
  results;
- it builds one commit whose files trigger the deployment pipeline: one
  `KEY=VALUE` property file per environment provider, or one policy file per
  permission plus a marker file;
- it turns the API's answer into a `{status, message}` outcome;
- it maps a repository deletion's status to an outcome.

**Frontend: the promotion card `AppPromoCard`** (`app_promo_card.dfy`). It
works out which environments an application may be promoted to next:
- same environment type;
- not deployed yet;
- at or above the highest deployed level;
- nearest first.

It also builds the ECS parameter map for each target provider, assembles the
provider records sent with a promotion, and keeps the card's list of choices
up to date after each answer.

The other files support these two:
- `text.dfy`: substring search, `toLowerCase` on ASCII, boolean text.
- `properties.dfy`: `KEY=VALUE` property lines, their rendering, and a
  reader that inverts it.
- `apps_common.dfy`: the records both sides exchange.
- `wrappers.dfy`: `Option` and `Result`.

The model works on plain inputs, not on the network:
- the hosting API's search hits;
- the HTTP status and body message of each call;
- the role ARN resolved from the parameter store;
- the parameter store, as a map;
- catalog entities, already fetched;
- the order in which concurrent parameter lookups complete.

The source's loops are methods proved against the functions that specify
them:
- the property-file builder;
- the highest-level scan;
- the provider-record assembly.

The card's React state is a class whose methods are the event handlers.

A commit that collides with files already in the repository ("A file with
this name already exists") is reported as FAILURE, with the message that the
environment "has already been scheduled" (`AwsPlatform.Classify`,
`AppPromoCard.RejectedPromotionKeepsChoices`).

## Model

| member | source | states |
|---|---|---|
| AwsPlatform.FirstExactMatch | backstage/plugins/aws-apps-backend/src/api/aws-platform.ts:199-201 | picks the first hit whose path is exactly the wanted one; none exactly when no hit has that path |
| AwsPlatform.GetGitProjectId | backstage/plugins/aws-apps-backend/src/api/aws-platform.ts:188-209 | success gives the non-empty id of the first exact `group/repo` match; otherwise the "Failed to get git project ID for group '…' and repo '…'" error, and then any first match has an empty id |
| AwsPlatform.FirstExactMatchShift | backstage/plugins/aws-apps-backend/src/api/aws-platform.ts:199-201 | a non-matching hit inserted at position k moves the found index one on when it is at or after k, and leaves none as none |
| AwsPlatform.LookupIgnoresInexactHits | backstage/plugins/aws-apps-backend/src/api/aws-platform.ts:197-201 | a hit whose path is not the exact one never changes the lookup, at whatever position it is inserted |
| Text.IncludesIsContainment | backstage/plugins/aws-apps-backend/src/api/aws-platform.ts:295 | the substring test used on the body message holds exactly when the text occurs at some position |
| AwsPlatform.Classify | backstage/plugins/aws-apps-backend/src/api/aws-platform.ts:292-303 | SUCCESS iff status ≤ 299, with the operation's "will not be complete until deployment succeeds" message; above 299 FAILURE, with "<env> has already been scheduled for …" when the body message contains the collision text, else the body message or "" |
| AwsPlatform.BuildPropertiesContent | backstage/plugins/aws-apps-backend/src/api/aws-platform.ts:257-265 | the text built by appending one `key=value` line per parameter after the fixed lines is the rendering of the nine fixed entries followed by the parameters |
| AwsPlatform.HeaderWellFormed | backstage/plugins/aws-apps-backend/src/api/aws-platform.ts:257-261 | the nine fixed entries form well-formed property lines whenever the provider fields carry no newline |
| AwsPlatform.PropertiesFileReadsBack | backstage/plugins/aws-apps-backend/src/api/aws-platform.ts:257-265 | reading the property file back gives the nine fixed entries in the order ACCOUNT … AAD_CI_REGISTRY_IMAGE (with `<env>-<provider>`, `true`/`false` and the ECR image), then exactly the provider's parameters |
| Properties.RenderEndsWithNewline | backstage/plugins/aws-apps-backend/src/api/aws-platform.ts:257-265 | a rendered property file is empty exactly when it has no entries, and otherwise ends with a newline, since every line is newline-terminated |
| Properties.ParseRender | backstage/plugins/aws-apps-backend/src/api/aws-platform.ts:263-265 | newline-terminated `key=value` lines read back to the entries they were rendered from |
| AwsPlatform.PromotionActions | backstage/plugins/aws-apps-backend/src/api/aws-platform.ts:254-273 | one action per provider in provider order, each a `create` of `.awsdeployment/providers/<env>-<provider>.properties` holding that provider's property file |
| AwsPlatform.PromotionPathsDistinct | backstage/plugins/aws-apps-backend/src/api/aws-platform.ts:255 | providers with different names write different property files |
| AwsPlatform.PromoteAppToGit | backstage/plugins/aws-apps-backend/src/api/aws-platform.ts:237-305 | a failed lookup posts nothing and reports "Failed to retrieve Git project ID for <repo>"; otherwise one commit to `main`, "generate CICD stages", with the promotion actions, goes to the looked-up project, and the answer is classified |
| AwsPlatform.MarkerContent | backstage/plugins/aws-apps-backend/src/api/aws-platform.ts:341 | the marker is the four lines RESOURCE_ENTITY_REF, RESOURCE_ENTITY, TARGET_ENV_NAME, TARGET_ENV_PROVIDER_NAME, without a final newline |
| AwsPlatform.BindActions | backstage/plugins/aws-apps-backend/src/api/aws-platform.ts:330-347 | one `create` per policy at `.iac/aws_ecs/permissions/<env>/<provider>/<file>.json` with its content, in policy order, then the marker `create`; length is policies + 1 |
| AwsPlatform.UnbindActions | backstage/plugins/aws-apps-backend/src/api/aws-platform.ts:409-426 | the same policy paths and contents with `delete`, then the marker still as `create`; length is policies + 1 |
| AwsPlatform.BindUnbindMirror | backstage/plugins/aws-apps-backend/src/api/aws-platform.ts:330-347 | bind and unbind agree on every path and content; they differ only in the verb of the policy actions |
| AwsPlatform.BindResource | backstage/plugins/aws-apps-backend/src/api/aws-platform.ts:307-384 | as written: a failed lookup posts nothing and reports the lookup failure; otherwise a "Bind Resource" commit to `main` is posted to the first search hit's project and the answer is classified |
| AwsPlatform.UnBindResource | backstage/plugins/aws-apps-backend/src/api/aws-platform.ts:386-463 | as written: the same as binding, with an "UnBind Resource" commit of the unbind actions |
| AwsPlatform.BindTargetsFirstHitNotExactMatch | backstage/plugins/aws-apps-backend/src/api/aws-platform.ts:355 | for hits `aws-app/orders-ui` (7) then `aws-app/orders` (42), the lookup finds 42 but bind and unbind post to 7 |
| AwsPlatform.BindResourceToMatch | backstage/plugins/aws-apps-backend/src/api/aws-platform.ts:321-355 | corrected binding: the commit goes to the project of the first exact match |
| AwsPlatform.UnBindResourceToMatch | backstage/plugins/aws-apps-backend/src/api/aws-platform.ts:400-434 | corrected unbinding: the commit goes to the project of the first exact match |
| AwsPlatform.BindToMatchAgreesWhenMatchIsFirst | backstage/plugins/aws-apps-backend/src/api/aws-platform.ts:355 | when the exact match is the first hit, the corrected and the as-written operations coincide |
| AwsPlatform.DeleteRepository | backstage/plugins/aws-apps-backend/src/api/aws-platform.ts:139-180 | a failed lookup deletes nothing and reports the lookup failure; otherwise `<group>%2F<repo>` is deleted and the result is SUCCESS iff status ≤ 299, with "Repository deleted successfully" or "Repository failed to delete" |
| AppPromoCard.HighestLevel | backstage/plugins/aws-apps/src/components/AppPromoCard/AppPromoCard.tsx:42-51 | at least 1, at least every deployed level, and either 1 or one of the deployed levels |
| AppPromoCard.GetHighestLevelEnvironment | backstage/plugins/aws-apps/src/components/AppPromoCard/AppPromoCard.tsx:42-51 | the scan returns the highest level: at least 1 and at least every deployed level |
| AppPromoCard.FilterCandidates | backstage/plugins/aws-apps/src/components/AppPromoCard/AppPromoCard.tsx:63-70 | every kept entity has the application's type, is not deployed and has a numeric level at or above the bound |
| AppPromoCard.FilterCandidatesCounts | backstage/plugins/aws-apps/src/components/AppPromoCard/AppPromoCard.tsx:63-70 | each qualifying entity is kept as often as the catalog holds it, and nothing else is kept |
| AppPromoCard.SortByLevel | backstage/plugins/aws-apps/src/components/AppPromoCard/AppPromoCard.tsx:71-73 | ascending by level, and a permutation of its input |
| AppPromoCard.SortKeepsTies | backstage/plugins/aws-apps/src/components/AppPromoCard/AppPromoCard.tsx:71-73 | the sort is stable: entities of one level keep their relative order |
| AppPromoCard.ApplicableEnvironments | backstage/plugins/aws-apps/src/components/AppPromoCard/AppPromoCard.tsx:53-74 | the candidates are a permutation of the qualifying catalog entities, all with numeric levels, ascending by level |
| AppPromoCard.ApplicableEnvironmentsMembers | backstage/plugins/aws-apps/src/components/AppPromoCard/AppPromoCard.tsx:53-74 | the candidates are exactly the qualifying catalog entities (same type, not deployed, level ≥ highest deployed), none dropped, none duplicated |
| AppPromoCard.ApplicableEnvironmentsOrdered | backstage/plugins/aws-apps/src/components/AppPromoCard/AppPromoCard.tsx:53-74 | each candidate qualifies, and the list ascends by level |
| AppPromoCard.ApplicableEnvironmentsStable | backstage/plugins/aws-apps/src/components/AppPromoCard/AppPromoCard.tsx:63-73 | candidates of equal level appear in catalog order |
| AppPromoCard.PromotionScenario | backstage/plugins/aws-apps/src/components/AppPromoCard/AppPromoCard.tsx:53-74 | with `dev` (level 1) deployed, an ECS application may go to `staging` then `prod`; the EKS environment and `dev` are excluded |
| AppPromoCard.GetParameters | backstage/plugins/aws-apps/src/components/AppPromoCard/AppPromoCard.tsx:98-138 | ECS gives TARGET_VPCID, TARGET_ECS_CLUSTER_ARN, TARGET_ENV_NAME, TARGET_ENV_PROVIDER_NAME, TARGE_ENV_AUDIT in that order, with the looked-up values (or "") and the names passed through; `eks` and `serverless` fail with "TO BE IMPLEMENTED - eks" and "TO BE IMPLEMENTED - serverless"; any other type fails with `UNKNOWN PROVIDER TYPE" <lower-cased type>`, or `… undefined` when there is none |
| AppPromoCard.GetParametersIgnoresCase | backstage/plugins/aws-apps/src/components/AppPromoCard/AppPromoCard.tsx:109 | the dispatch gives the same result for a type and its lower-case form |
| AppPromoCard.ProviderRecordFor | backstage/plugins/aws-apps/src/components/AppPromoCard/AppPromoCard.tsx:150-173 | a record exists iff the parameters do; it carries the environment name, the truthiness of `deployment_requires_approval`, and account, region, prefix and role defaulting to "" |
| AppPromoCard.ResolveProviders | backstage/plugins/aws-apps/src/components/AppPromoCard/AppPromoCard.tsx:160-173 | every provider has its record at its own index when all succeed; otherwise the error is some provider's error |
| AppPromoCard.GetEnvProviders | backstage/plugins/aws-apps/src/components/AppPromoCard/AppPromoCard.tsx:144-176 | records pushed in completion order succeed iff every provider does; they are the per-provider records listed in completion order, so a permutation of them; a failure is one provider's error |
| AppPromoCard.PromoRequest | backstage/plugins/aws-apps/src/components/AppPromoCard/AppPromoCard.tsx:194-203 | a request exists iff there is a provider record; it carries the selected name, the first record's approval flag, the given Git host and repository name, the fixed job, group and secret names, and all records |
| AppPromoCard.ManualApprovalIndependentOfOrder | backstage/plugins/aws-apps/src/components/AppPromoCard/AppPromoCard.tsx:196 | whatever the completion order, the flag read from the first record is the environment's own approval flag |
| AppPromoCard.Without | backstage/plugins/aws-apps/src/components/AppPromoCard/AppPromoCard.tsx:215-217 | keeps exactly the choices with a different name, each as often as before |
| AppPromoCard.WithoutAppend | backstage/plugins/aws-apps/src/components/AppPromoCard/AppPromoCard.tsx:215-217 | the filter works piece by piece over a concatenation, so the kept choices keep their relative order |
| AppPromoCard.WithoutFirst | backstage/plugins/aws-apps/src/components/AppPromoCard/AppPromoCard.tsx:215-217 | the first kept choice is the first choice, in order, whose name differs |
| AppPromoCard.WithoutShrinks | backstage/plugins/aws-apps/src/components/AppPromoCard/AppPromoCard.tsx:215-217 | the filter never lengthens the choices |
| AppPromoCard.WithoutDrops | backstage/plugins/aws-apps/src/components/AppPromoCard/AppPromoCard.tsx:215-217 | when some choice carries the name, the filter makes the choices strictly shorter |
| AppPromoCard.RejectedPromotionKeepsChoices | backstage/plugins/aws-apps/src/components/AppPromoCard/AppPromoCard.tsx:213-229 | any answer above 299, the collision included, leaves the choices unchanged |
| AppPromoCard.AcceptedPromotionRemovesChoice | backstage/plugins/aws-apps/src/components/AppPromoCard/AppPromoCard.tsx:213-218 | an answer up to 299 removes exactly the promoted name from the choices |
| AppPromoCard.PromoCardState.constructor | backstage/plugins/aws-apps/src/components/AppPromoCard/AppPromoCard.tsx:25-31 | the initial state: no choices, nothing selected, nothing disabled, spinning or promoted |
| AppPromoCard.PromoCardState.LoadChoices | backstage/plugins/aws-apps/src/components/AppPromoCard/AppPromoCard.tsx:82-92 | the choices become the candidates; the first is selected, or the control is disabled when there are none |
| AppPromoCard.PromoCardState.HandleChange | backstage/plugins/aws-apps/src/components/AppPromoCard/AppPromoCard.tsx:94-96 | the picked choice becomes the selection, which stays one of the choices |
| AppPromoCard.PromoCardState.Click | backstage/plugins/aws-apps/src/components/AppPromoCard/AppPromoCard.tsx:182-190 | with nothing selected nothing changes; otherwise the spinner starts and the last promoted name is cleared |
| AppPromoCard.PromoCardState.PromotionSettled | backstage/plugins/aws-apps/src/components/AppPromoCard/AppPromoCard.tsx:206-230 | the spinner stops and the promoted name is recorded; on SUCCESS the name leaves the choices and the first remaining one is selected, or the control is disabled and the selection cleared, and the choices get strictly shorter; otherwise choices and selection stay; the selection stays one of the choices |
| AppPromoCard.PromoCardState.CloseAlert | backstage/plugins/aws-apps/src/components/AppPromoCard/AppPromoCard.tsx:178-180 | the promoted name is cleared |
| AppPromoCard.PromoCardState.PromotionRejected | backstage/plugins/aws-apps/src/components/AppPromoCard/AppPromoCard.tsx:231-236 | the spinner stops, the promoted name is recorded and the promotion is marked unsuccessful |

## Left out

- Network and SDK calls are inputs, not modelled: the hosting API search, the commit and delete requests, Secrets Manager, SSM, STS and CloudFormation. So are the catalog queries and the card's calls to its backend API.
- The Git token is not modelled: reading it from a secret and parsing that secret's JSON are foreign calls.
- The role ARN is resolved by a parameter-store read. It enters as a function from role name to text, already rendered as the template literal renders it, `undefined` included.
- Errors thrown by the network calls, or by the backend's parameter-store read, are not modelled as such:
  - In promotion the project search runs inside a `try` (aws-platform.ts:245-251). A failed fetch, a body that is not JSON or an answer that is not a list ends like an empty hit list: FAILURE with "Failed to retrieve Git project ID for <repo>", which `PromoteAppToGit` gives for no hits.
  - Binding, unbinding and repository deletion have no `try` around their search (aws-platform.ts:144-155, 313-325, 392-404). A failed fetch, a body that is not JSON, or a truthy answer that is not a list rejects them. A falsy answer such as `null` skips the filter (`if (gitProjectsJson)`, aws-platform.ts:153, 323, 402) and ends in the lookup FAILURE "Failed to retrieve Git project ID for <repo>", as no hits do.
  - Every other thrown error rejects the whole request.
- Concurrency (`Promise.all`) is not modelled as such:
  - Backend actions are built in provider order, which `Promise.all` preserves.
  - Card records are pushed in an explicit completion order.
  - A failure rejects the card's assembly, and the rejection is the first failure in that order.
- One parameter store stands for every provider's account and region. The card points the backend at each provider's account and region before its reads (`setBackendParams`, AppPromoCard.tsx:101-107). With several providers assembled concurrently, an earlier provider's cluster and audit reads may go to the last provider's account; that race is not modelled.
- Parameter-store failures are not modelled in detail. A name the store does not know fails the read. The store's own error text is not modelled, and `ParameterNotFound` stands for it.
- The catalog-relation filtering in `getEnvProviders` is not modelled: the provider entities arrive already resolved. Neither is the lookup of the selected environment entity.
- The repository name `gitRepo.split('/')[1]` is not modelled: it enters `PromoRequest` as an input.
- `Number.parseInt` is not modelled: a level arrives as a number or as none, standing for NaN.
- Metadata fields read with `toString()` are not modelled: they arrive as text.
- `toLowerCase` is modelled on ASCII letters only.
- The parameter map is modelled as a sequence in key order. `Object.keys` gives that order for these non-numeric keys.
- `handleClick` after a failed provider assembly is not modelled. Neither is `handleClick` with no provider record (`providers[0]` is undefined). Nothing handles either rejection, so no state changes and the backdrop stays open. `PromoRequest` gives none in the second case.
- The constants `ProviderType.ECS`, `EKS` and `SERVERLESS` are defined in `helpers/constants`, which is not part of this model. They are taken as "ecs", "eks" and "serverless".
- The body message is modelled as text or none. A non-text `message` in an error body is not modelled.
- React rendering, the alerts and the backdrop are not modelled. The backdrop appears only as the `!spinning` precondition of `HandleChange`.
- `getFileContentsFromGit`, secret and stack deletion are not modelled: they are SDK or network pass-throughs with no decision logic.

## Findings

| source | as written | input that shows it | evidently intended | confidence | as-written member | corrected member |
|---|---|---|---|---|---|---|
| backstage/plugins/aws-apps-backend/src/api/aws-platform.ts:355 | the bind commit is posted to `gitProjectsJson[0].id`, the first search hit | search hits `aws-app/orders-ui` (id 7) then `aws-app/orders` (id 42) for group `aws-app`, repo `orders`: the lookup accepts 42, the commit goes to 7 | post to the exact match found by the lookup, as promotion does | not executed | AwsPlatform.BindResource | AwsPlatform.BindResourceToMatch |
| backstage/plugins/aws-apps-backend/src/api/aws-platform.ts:434 | the unbind commit is posted to `gitProjectsJson[0].id`, the first search hit | the same hits: the lookup accepts 42, the commit goes to 7 | post to the exact match found by the lookup | not executed | AwsPlatform.UnBindResource | AwsPlatform.UnBindResourceToMatch |
