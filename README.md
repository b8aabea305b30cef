# cdm-kube-spark-manager, modelled in Dafny

A model of the request path that provisions a per-user Spark cluster on
Kubernetes, and of the small decision tables around it:

- **KubeSparkManager** (`SparkManager`, spark_manager.dfy)
  - It derives the resource names and the cluster id from the username.
  - It validates the six required environment variables.
  - It builds the template-value maps of the master Deployment, the master Service and the worker Deployment.
  - It applies each resource with create-or-replace: create; on HTTP 409 delete by name and create once more; any other failure propagates.
  - `create_cluster` applies the three resources strictly in order, with no rollback.
  - It returns URLs computed from the names.
  - The class keeps its fields as `const`s and drives a mutable `KubeStore.Platform`.
- **The Kubernetes API** (`KubeStore`, kube_store.dfy) is a namespaced object store.
  - The store is a map from (namespace, kind, name) to manifest.
  - A log records every call issued.
  - A fault oracle answers each create or delete with success or an HTTP status.
  - A call the oracle fails changes nothing.
  - Every method that touches the platform is proved equal to a pure specification function of the old state: `CreateOrReplaceEffect`, `ApplyInOrder` and `CreateClusterEffect`. The listed properties are proved about those functions.
- **The create-cluster route** (`Clusters`, clusters.dfy) covers:
  - the limit check for callers without full admin rights;
  - the conversion of a byte count into a whole-gigabyte Kubernetes quantity (`ceil(bytes / 10^9)` followed by `G`);
  - the hand-off to the manager.
- **render_template** (`Templates`, templates.dfy) is the sequential `${KEY}` replacement loop.
  - Python's `str.replace` is modelled as leftmost, non-overlapping replacement.
  - The loop is a method proved equal to a fold.
- **The bearer-header guard chain** (`HttpBearer`, http_bearer.dfy) follows the `Authorization: Bearer <token>` form of section 2.1 of RFC 6750.
  - The scheme is compared case-insensitively, as section 2.1 of RFC 7235 allows.
  - FastAPI's scheme/credentials split and the auth client's verdict are parameters.
- **Errors**:
  - the `ErrorType` table (`Errors`);
  - the exception hierarchy with an explicit subclass relation (`Exceptions`);
  - `map_error`'s exact-type lookup (`ErrorMapping`), with status codes from section 15 of RFC 9110;
  - the universal exception handler and its response formatter (`ExceptionHandlers`).

`Text` holds the string helpers: decimal rendering of integers, ASCII lower-casing, Python's whitespace set and `join`. `Wrappers` holds `Option` and `Result`.

Observations the model makes precise:

- **Leftover placeholders.** "No `${KEY}` of a supplied key remains when no value contains `${`" does not hold for every template.
  - `str.replace` can splice a new placeholder together out of the surrounding text. `Templates.SplicedPlaceholder` shows `"${${K}}"` with `K := "K"` rendering to `"${K}"`.
  - The property holds on well-formed templates, with `$`-free values and plain keys. A well-formed template has text without `$`, and placeholders whose keys hold no `$`, `{` or `}`; a plain key is such a key. `Templates.RenderedPlaceholders` proves both directions there.
  - The value premise is needed even on a well-formed template. `Templates.DollarValueSplices` shows `"${A}{B}"` with `B := "x"`, then `A := "a$"`, rendering to `"a${B}"`.
- **The limit error.** `ConfigurationLimitExceededError` is not defined in the exception module and is not an entry of `_ERR_MAP`.
  - It is modelled as a direct subclass of `SparkManagerError`.
  - As written, the handler therefore answers it with status 500 and null error code and type, although `ErrorType.CONFIGURATION_LIMIT_EXCEEDED` exists. `ErrorMapping.UnmappedClasses` states this.
- **Generic authentication failures.** `AuthenticationError` is also absent from `_ERR_MAP`, so these surface as 500 (`HttpBearer.RaisedStatuses`).
- **Order in the route.** The manager is constructed, and so the environment is validated, before the limit check. A missing variable therefore takes precedence over the limit error (`Clusters.CreateCluster`).

## Model

| member | source | states |
|---|---|---|
| Templates.Placeholder | src/template_utils.py:37 | the placeholder is `${`, the key, then `}`, and the key can be read back from it |
| Templates.RenderTemplate | src/template_utils.py:22-40 | the loop's result equals the fold of "replace every non-overlapping `${key}` by str(value)" over the entries in order |
| Templates.RenderWithoutValues | src/template_utils.py:33-40 | with no values the template comes back unchanged |
| Templates.ReplaceWithoutPlaceholders | src/template_utils.py:38 | a text without `${` is unchanged by replacing any placeholder |
| Templates.RenderWithoutPlaceholders | src/template_utils.py:33-40 | a template without `${` renders to itself for every values map |
| Templates.IntValueIsDecimal | src/template_utils.py:38 | an integer value is substituted as its decimal text: a non-negative one as its digits, which parse back to it; a negative one as `-` followed by the digits of its magnitude |
| Templates.PortRendersAsDecimal | src/template_utils.py:38 | port 7077 is substituted as "7077" |
| Templates.RenderIsSubstAll | src/template_utils.py:33-40 | on well-formed templates and `$`-free values, rendering equals substituting the pieces' holes entry by entry |
| Templates.ReplaceAll | src/template_utils.py:38 | `str.replace` as leftmost non-overlapping replacement: replacing a pattern by itself changes nothing, and a replacement of the pattern's length keeps the length |
| Templates.Render | src/template_utils.py:33-38 | a last entry whose value is its own placeholder leaves the result of the earlier entries unchanged |
| Templates.UnknownPlaceholderStays | src/template_utils.py:36-38 | for any template and any values with plain keys, a placeholder `${x}` in the template whose x is not a supplied key is still in the output |
| Templates.RenderedPlaceholders | src/template_utils.py:36-38 | on well-formed templates, with `$`-free values and plain keys, `${x}` is in the output exactly when it is in the template and x is not a supplied key: unknown placeholders stay, supplied ones all go |
| Templates.SplicedPlaceholder | src/template_utils.py:36-38 | without well-formedness a supplied key's placeholder can remain: `"${${K}}"` with K := "K" renders to `"${K}"` |
| Templates.DollarValueSplices | src/template_utils.py:36-38 | without `$`-free values a supplied key's placeholder can remain even in a well-formed template: `"${A}{B}"` with B := "x", then A := "a$", renders to `"a${B}"` |
| KubeStore.Platform.Submit | src/spark_manager.py:289-316 | a Kubernetes call is logged; it changes the store only when the oracle answers success |
| Errors.ErrorType.ErrorCode | src/service/errors.py:17-43 | every error_code is a multiple of ten, 10000 to 10060 for service errors or 30010 for request validation |
| Errors.ErrorType.Label | src/service/errors.py:17-43 | every member's error_type label is non-empty |
| Errors.FromCode | src/service/errors.py:17-43 | the member found for a code carries that code; none is found only when no member carries it |
| Errors.CodesDistinct | src/service/errors.py:17-38 | two members with the same code are the same member |
| Errors.LabelsDistinct | src/service/errors.py:17-38 | two members with the same label are the same member |
| Errors.FromCodeRoundTrip | src/service/errors.py:17-43 | looking up a member's own code gives the member back |
| Errors.CodeFamilies | src/service/errors.py:17-38 | authentication codes are exactly 10000..10040 in steps of 10, the cluster codes 10050 and 10060, and request validation 30010 |
| Exceptions.IsSubclassOf | src/service/exceptions.py:6-39 | issubclass: every class is a subclass of itself and of its direct base; a class without a base inside the hierarchy is a subclass only of itself |
| Exceptions.SubclassTransitive | src/service/exceptions.py:6-39 | the subclass relation is transitive |
| Exceptions.SubclassDepth | src/service/exceptions.py:6-39 | a subclass lies at least as deep as its superclass, and strictly deeper unless they are the same class |
| Exceptions.SubclassAntisymmetric | src/service/exceptions.py:6-39 | two classes that are subclasses of each other are equal |
| Exceptions.AllAreSparkManagerErrors | src/service/exceptions.py:6-39 | every class of the hierarchy passes the isinstance(exc, SparkManagerError) test |
| Exceptions.AuthenticationLeaves | src/service/exceptions.py:12-39 | exactly the four token/header/role errors derive directly from AuthenticationError, which derives from SparkManagerError |
| Exceptions.LeavesUnrelated | src/service/exceptions.py:18-39 | no authentication leaf is a subclass of another leaf |
| ErrorMapping.ErrMapTable | src/service/error_mapping.py:35-40 | `_ERR_MAP` holds exactly the four authentication leaf classes, each with a type; missing role is answered 403 and the other three 401 |
| ErrorMapping.MapError | src/service/error_mapping.py:43-58 | total; the type is absent exactly when the status is 500; a type is found exactly for an exact-class table entry, and then it is that entry |
| ErrorMapping.MappedEntries | src/service/error_mapping.py:35-40 | the four table entries: no token, invalid header and invalid token give 401, missing role gives 403 |
| ErrorMapping.UnmappedClasses | src/service/error_mapping.py:43-58 | the base classes and the limit error are not matched through subclassing and give (None, 500) |
| ErrorMapping.MappedCodesAreAuthentication | src/service/error_mapping.py:35-40 | every mapped type carries an authentication-family code |
| ExceptionHandlers.MessageOrFallback | src/service/exception_handlers.py:30 | the message if non-empty, else the error type, else "Unknown error"; never empty |
| ExceptionHandlers.FormatError | src/service/exception_handlers.py:18-32 | the body has exactly the keys error, error_type and message, carries the given code and type, and its message is `message or error_type_str or "Unknown error"`, never empty |
| ExceptionHandlers.UniversalErrorHandler | src/service/exception_handlers.py:35-79 | per branch: application errors take status, code and type from map_error and message str(exc) or the label; validation errors 400/30010 with str(errors()) as message, or the label when it is empty; HTTPException keeps its status with null code and type and str(detail) as message, or "Unknown error" when it is empty; anything else 500 with a fixed message |
| ExceptionHandlers.NoInternalDetail | src/service/exception_handlers.py:74-77 | two unexpected exceptions give identical responses, so their content never reaches the body |
| ExceptionHandlers.AppErrorsAreMapped | src/service/exception_handlers.py:50-60 | every application exception's status is map_error's status |
| ExceptionHandlers.EmptyMessageFallsBack | src/service/exception_handlers.py:50-60 | an empty message falls back to the type label, or to "Unknown error" when there is none |
| HttpBearer.PartitionScheme | src/service/http_bearer.py:48 | the scheme holds no space; with a space in the header, the header is scheme, space, credentials; without one, the credentials are empty |
| HttpBearer.KBaseHTTPBearer.Call | src/service/http_bearer.py:42-67 | the full guard chain: no user exactly for an absent or empty optional header; missing token; malformed; wrong scheme; authenticated exactly when every check passes and the client verifies; invalid token; generic failure |
| HttpBearer.IsBearerScheme | src/service/http_bearer.py:53 | the scheme matches exactly when it has six characters that lower-case, one by one, to "bearer" |
| HttpBearer.BearerSchemeCaseInsensitive | src/service/http_bearer.py:53 | a scheme is accepted exactly when its whole lower-cased text is "bearer" |
| HttpBearer.SchemeSpellingsAccepted | src/service/http_bearer.py:53-57 | "bearer", "BEARER" and "Bearer" are accepted; "Basic" and "Bearer1" are not |
| HttpBearer.ClientConsultedLast | src/service/http_bearer.py:58-59 | until every header check passes, the auth client's answer cannot affect the result |
| HttpBearer.ClientSeesCredentials | src/service/http_bearer.py:58-59 | clients agreeing on the credentials part give the same result: the client sees exactly that part |
| HttpBearer.WrongSchemeMessageFixed | src/service/http_bearer.py:53-57 | all wrong-scheme headers give the same error, so the received scheme is not echoed |
| HttpBearer.SchemeWithoutTokenRejected | src/service/http_bearer.py:48-52 | "Bearer" without a token is an invalid header even when the header is optional |
| HttpBearer.RaisedStatuses | src/service/http_bearer.py:42-67 | every raised error is an application error; the generic failure maps to 500 and every other one to 401 |
| SparkManager.ValidEnvironmentPresent | src/spark_manager.py:112-116 | after validation the variables read with os.environ[...] are all present |
| SparkManager.MissingOf | src/spark_manager.py:86-89 | the missing list never has more entries than the table of required variables |
| SparkManager.MissingMessage | src/spark_manager.py:92-96 | the ValueError message starts with the "Missing required environment variables:" line; with nothing missing it is that line alone, with one entry that line and "- " plus the entry |
| SparkManager.MissingMessageSnoc | src/spark_manager.py:92-96 | each further missing entry appends a newline and the line "- " plus the entry |
| SparkManager.MissingOfEmpty | src/spark_manager.py:86-96 | the missing list is empty exactly when every required variable is set to something other than whitespace |
| SparkManager.MissingOfLists | src/spark_manager.py:86-89 | the report names every missing variable as "NAME (description)", and nothing else |
| SparkManager.KubeSparkManager.ValidateEnvironment | src/spark_manager.py:76-98 | Ok exactly when the environment is valid, and then the map's keys are exactly the six names with the environment's values; otherwise the message lists the missing variables in declaration order |
| SparkManager.KubeSparkManager.constructor | src/spark_manager.py:100-124 | sets namespace, image, pull policy, names and cluster id from the username and the environment |
| SparkManager.KubeSparkManager.New | src/spark_manager.py:100-124 | a manager exactly when the environment is valid, otherwise ValueError with the missing-variables message |
| SparkManager.MasterName | src/spark_manager.py:123 | "spark-master-" followed by the username lower-cased character by character |
| SparkManager.WorkerName | src/spark_manager.py:124 | "spark-worker-" followed by the username lower-cased character by character |
| SparkManager.ClusterId | src/spark_manager.py:120 | "spark-", then the lower-cased username, then "-", then the random suffix at the end |
| SparkManager.NamesFixedByUsername | src/spark_manager.py:123-124 | two usernames give the same master (and worker) name exactly when they lower-case alike |
| SparkManager.ClusterIdVaries | src/spark_manager.py:120 | for one username the cluster id differs exactly when the random suffix differs |
| SparkManager.MasterWorkerDistinct | src/spark_manager.py:123-124 | no master name equals any worker name |
| SparkManager.MasterUrl | src/spark_manager.py:164-166 | a `spark://` URL ending in the master port ":7077" |
| SparkManager.MasterUiUrl | src/spark_manager.py:167 | an `http://` URL ending in the web UI port ":8090" |
| SparkManager.UrlsSpelledOut | src/spark_manager.py:164-167 | the master URL ends in ":7077" and the UI URL in ":8090" |
| SparkManager.ClusterResponse | src/spark_manager.py:163-173 | cluster id, `spark://<master>.<namespace>:7077` and `http://<master>.<namespace>:8090`, built from the names alone |
| SparkManager.MasterDeploymentValues | src/spark_manager.py:183-208 | the master deployment's map, in the source order, with distinct keys |
| SparkManager.MasterServiceValues | src/spark_manager.py:220-227 | the master service's map with distinct keys |
| SparkManager.WorkerDeploymentValues | src/spark_manager.py:249-266 | the worker deployment's map with distinct keys |
| SparkManager.LookupAt | src/spark_manager.py:183-266 | a dict literal with distinct keys answers each key with the value written beside it |
| SparkManager.TemplateValuesConsistent | src/spark_manager.py:183-266 | one CLUSTER_ID across the three maps, identical POSTGRES_* values from the environment in master and worker, MASTER_NAME in the worker map |
| SparkManager.CreateOrReplaceEffect | src/spark_manager.py:278-356 | one create first; success or a non-409 failure ends there with no delete; on 409 exactly one delete, and only if it succeeds exactly one more create; all calls target the one key; other keys untouched; success leaves exactly the new manifest under the key |
| SparkManager.KubeSparkManager.CreateOrReplace | src/spark_manager.py:278-356 | the method's calls and final state are those of CreateOrReplaceEffect |
| SparkManager.HonestCreateOrReplace | src/spark_manager.py:282-356 | on a fault-free platform it succeeds, with one create for a new name and create, delete, create for an existing one |
| SparkManager.HonestApplyTwice | src/spark_manager.py:318-356 | applying the same resource twice succeeds and leaves that one manifest under the name |
| SparkManager.ApplyInOrder | src/spark_manager.py:156-161 | the log grows by one trace per attempted resource, in order; success means all were attempted, failure that at least the first was |
| SparkManager.ApplyInOrderCalls | src/spark_manager.py:156-161 | each attempted resource's trace holds one to three calls, starts with that resource's create and targets only its key |
| SparkManager.CreateOrReplaceFailure | src/spark_manager.py:329-356 | a failed create-or-replace returns the platform's reply to its last call: the exception is re-raised unchanged |
| SparkManager.ApplyInOrderFailure | src/spark_manager.py:156-161 | when creating the cluster fails, at least one call was made and the error returned is the platform's reply to the last call made |
| SparkManager.ApplyInOrderUntouched | src/spark_manager.py:156-161 | keys of resources never attempted hold what they held before |
| SparkManager.AppliedResourcesPersist | src/spark_manager.py:156-161 | every resource whose step completed still holds its manifest afterwards: no rollback |
| SparkManager.AttemptedOnlyInOrder | src/spark_manager.py:156-161 | after a failure no call targets any later resource |
| SparkManager.ClusterResources | src/spark_manager.py:156-161 | in this order: the master Deployment, the master Service, both named after the master, and the worker Deployment, each from its own template, under three distinct keys |
| SparkManager.ApplyAll | src/spark_manager.py:156-173 | applying a resource list either answers with the given response, or with an ApiException carrying the status the platform answered to the last call; the log only grows |
| SparkManager.CreateClusterEffect | src/spark_manager.py:135-173 | create_cluster as a function of the platform state: the log only grows; success returns the response computed from the names; failure is an ApiException whose status is the one the platform answered to the last call made |
| SparkManager.HonestCreateCluster | src/spark_manager.py:135-173 | on a fault-free platform create_cluster returns the computed response and all three manifests are in place |
| SparkManager.KubeSparkManager.CreateMasterDeployment | src/spark_manager.py:175-216 | create-or-replace of the master deployment rendered from its map |
| SparkManager.KubeSparkManager.CreateMasterService | src/spark_manager.py:218-233 | create-or-replace of the master service rendered from its map |
| SparkManager.KubeSparkManager.CreateWorkerDeployment | src/spark_manager.py:235-276 | create-or-replace of the worker deployment rendered from its map |
| SparkManager.KubeSparkManager.CreateCluster | src/spark_manager.py:135-173 | the calls, final state and result are those of applying the three resources in order; the first failure is returned as ApiException |
| Clusters.MemoryGigabytes | src/routes/clusters.py:76-77 | the least whole number of gigabytes (10^9 bytes) holding the byte count |
| Clusters.MemoryQuantity | src/routes/clusters.py:76-77 | decimal digits followed by `G`, the digits reading back as the rounded-up gigabytes |
| Clusters.NeverRoundsDown | src/routes/clusters.py:76-77 | the quantity never holds fewer bytes than requested |
| Clusters.WholeGigabytesExact | src/routes/clusters.py:76-77 | a whole number of gigabytes renders exactly |
| Clusters.GigabytesMonotone | src/routes/clusters.py:76-77 | more bytes never give fewer gigabytes |
| Clusters.ConversionExamples | src/routes/clusters.py:76-77 | 10.4 GB gives "11G", 10 GB gives "10G" |
| Clusters.ExceedsLimits | src/routes/clusters.py:53-59 | a request exceeds the limits exactly when it is not within 2 workers, 10 worker cores, 10 GB of worker memory, 10 master cores and 10 GB of master memory |
| Clusters.LimitMessageText | src/routes/clusters.py:61-69 | the refusal names every default: 2 workers, 10 cores each and "9.3GiB" of memory for workers and master |
| Clusters.Admit | src/routes/clusters.py:47-86 | refused with ConfigurationLimitExceededError exactly when the caller lacks full admin and some field exceeds its default; otherwise counts and cores pass unchanged and memory is converted |
| Clusters.AdminsSkipLimits | src/routes/clusters.py:47 | a full admin is never refused |
| Clusters.DefaultsAdmitted | src/routes/clusters.py:53-59 | the defaults themselves pass: the comparison is strict |
| Clusters.OneFieldOverRefused | src/routes/clusters.py:53-69 | any single field one unit above its default is refused |
| Clusters.AdmittedWithinDefaults | src/routes/clusters.py:47-86 | what a non-admin request hands the manager is at most 2 workers, 10 cores and "10G" |
| Clusters.CreateCluster | src/routes/clusters.py:37-88 | an incomplete environment is a ValueError and a refused request a limit error, both leaving the platform untouched; otherwise the result is the manager's create_cluster on the converted arguments |

## Left out

- Kubernetes client calls, `load_incluster_config` and logging are foreign and network code. They are replaced by `KubeStore.Platform`, a store plus a fault oracle. Concurrent writers to the namespace are not modelled, beyond what the oracle may answer.
- The status and delete routes (src/routes/clusters.py:91-132) call `get_cluster_status` and `delete_cluster`. These are not part of this model; src/spark_manager.py as modelled does not define them.
- `load_yaml_template` and `yaml.safe_load` are file I/O and a library.
  - A rendered manifest is kept opaque, as its template path plus its value map.
  - `render_template` itself is modelled and proved in `Templates`.
- `uuid.uuid4()` is randomness. Its 8-character prefix is a parameter.
- `os.environ` is the `Env` map parameter.
  - The template file names are the defaults that the `*_TEMPLATE_FILE` variables would override.
  - The `TEMPLATES_DIR` prefix is not modelled.
- FastAPI routing, `Depends`, async/await and `JSONResponse` are framework plumbing.
- The KBase auth client and the `app_state` singleton are external. The client's verdict is a function parameter.
- Text.Lower: lower-cases ASCII letters only; Python's `str.lower` also folds other scripts.
- HttpBearer.KBaseHTTPBearer.Call: the generic failure's message is modelled as "Authentication failed: " plus the client's error text. The source passes two arguments to `AuthenticationError`, so Python's `str()` of it is the tuple representation. Its quoting depends on `repr`, which is not modelled.
- ExceptionHandlers.UniversalErrorHandler: `str(exc.errors())` and `str(exc.detail)` are taken as given strings.
- Clusters.MemoryGigabytes: computes the exact ceiling on integers. The source divides in floating point (`.to('GB')`), which differs only for byte counts beyond 2^53.
- Clusters.SparkClusterConfig: memory is a non-negative byte count.
  - Pydantic's parsing of sizes such as "10G" is library behaviour.
  - The default "10G" is taken as 10^10 bytes.
- Clusters.LimitMessage: the default memory's `human_readable()` rendering is the constant "9.3GiB".
- The created object's key is taken to be the `name` argument. The source creates from the rendered body, whose own metadata carries the name, and deletes by `name` (src/spark_manager.py:291-300, 331-340). The model assumes the two agree.
- `SPARK_IMAGE_PULL_POLICY` is read once, when the module is imported (src/spark_manager.py:63-65). The model reads it from the `Env` passed to each call, so a change of environment after import is not modelled.
- The `*_TEMPLATE_FILE` variables are also read at import (src/spark_manager.py:41-49). The model always uses their default file names, so an override of them is not modelled.
- The non-409 failure path of create-or-replace propagates the `ApiException` unchanged. Its HTTP response is then the handler's generic 500.
