# Verified model of the ruoyi-vue-pro (yudao) framework core

This project models, in Dafny, the six framework components of the yudao
admin backend that make decisions of their own:

- **Authorization decision service** (`SecurityFrameworkServiceImpl`): the
  `hasPermission` / `hasRole` / `hasScope` checks used by
  `@PreAuthorize("@ss.hasPermission(...)")` and their `hasAny*` forms.
  Permission and role checks are answered by the injected `PermissionApi`;
  scope checks are answered locally from the login user's scopes.
- **Authentication guard** (`PreAuthenticatedAspect.around`): a method
  annotated `@PreAuthenticated` runs only when someone is logged in.
- **Id-type and Quartz-driver selection** (`IdTypeEnvironmentPostProcessor`):
  at start-up, the primary datasource's database decides the Quartz JobStore
  driver delegate and replaces a MyBatis-Plus id type of `NONE` by `INPUT`
  or `AUTO`, written into the system-properties layer of the environment.
- **JavaScript-safe `Long` serialisation** (`NumberSerializer`).
- **Integer-list column codec** (`IntegerListTypeHandler`).
- **XSS-cleaning string serialiser** (`XssStringJsonSerializer`).

Files: `common.dfy` (Option, Java `long`/`int`, `StrUtil.isEmpty`),
`decimal_text.dfy` (decimal text and its parse, with the round trip),
`security_framework_service.dfy`, `pre_authenticated_aspect.dfy`,
`mybatis_plus.dfy` (the `IdType` and `DbType` enums),
`configurable_environment.dfy` (layered property sources and the
environment object), `id_type_environment_post_processor.dfy`,
`number_serializer.dfy`, `integer_list_type_handler.dfy`,
`xss_string_json_serializer.dfy`.

Collaborators the code calls but does not define are inputs of the model:
the current login user is an `Option<LoginUser>` argument; `PermissionApi`,
`JdbcUtils.getDbType`, `XssCleaner.clean` and `joinPoint.proceed()` are
function-valued arguments about which nothing is assumed. Each security check
returns a `Decision` holding the answer and the list of `PermissionApi` calls
made, so "never consults the API" and "always consults it" are statements
about that list. The aspect returns the outcome together with how many times
the wrapped body ran.

The id-type selection keeps its imperative form: `Environment` is a class
whose `systemProperties` map is updated in place by `SetIdType`,
`SetJobStoreDriverIfPresent` and `PostProcessEnvironment`; each method is
proved to leave the environment as the function `Process` (or
`AfterJobStoreDriver`, `PutSystemProperty`) says, and the properties are
proved as lemmas about those functions.

The integer-list codec relies on `CollUtil.join` and
`StrUtils.splitToInteger`, whose code is not part of this model. They are
defined here as: join writes each element's decimal text with `,` between
neighbours (a `null` list binds SQL NULL); split gives the empty list for
`""`, and otherwise cuts at every `,` and reads each field as
`Integer.parseInt` does (optional sign, digits, `int` range), failing with a
`NumberFormatException` on any other field.

With no login user, `hasAnyPermissions` and `hasAnyRoles` still call
`PermissionApi`, passing `getLoginUserId()`, which is then `null`
(SecurityFrameworkServiceImpl.java lines 58 and 68). There is no local
`false` shortcut (`AnonymousChecksStillCallApi`).

## Model

| member | source | states |
|---|---|---|
| `SecurityFrameworkService.Service.HasAnyPermissions` | yudao-framework/yudao-spring-boot-starter-security/src/main/java/cn/iocoder/yudao/framework/security/core/service/SecurityFrameworkServiceImpl.java:56-59 | exactly one `PermissionApi.hasAnyPermissions` call, with the login-user id (absent when nobody is logged in) and the tokens unfiltered; the decision is that call's answer |
| `SecurityFrameworkService.Service.HasPermission` | yudao-framework/yudao-spring-boot-starter-security/src/main/java/cn/iocoder/yudao/framework/security/core/service/SecurityFrameworkServiceImpl.java:23-54 | `hasPermission(p)` is `hasAnyPermissions([p])`, answer and API calls alike |
| `SecurityFrameworkService.Service.HasAnyRoles` | yudao-framework/yudao-spring-boot-starter-security/src/main/java/cn/iocoder/yudao/framework/security/core/service/SecurityFrameworkServiceImpl.java:66-69 | exactly one `PermissionApi.hasAnyRoles` call with the login-user id and the roles as given; the decision is its answer |
| `SecurityFrameworkService.Service.HasRole` | yudao-framework/yudao-spring-boot-starter-security/src/main/java/cn/iocoder/yudao/framework/security/core/service/SecurityFrameworkServiceImpl.java:61-64 | `hasRole(r)` is `hasAnyRoles([r])` |
| `SecurityFrameworkService.Service.HasAnyScopes` | yudao-framework/yudao-spring-boot-starter-security/src/main/java/cn/iocoder/yudao/framework/security/core/service/SecurityFrameworkServiceImpl.java:76-83 | no API call at all; `false` without a login user; with one, granted iff some requested scope is among the user's scopes (any-of) |
| `SecurityFrameworkService.Service.HasScope` | yudao-framework/yudao-spring-boot-starter-security/src/main/java/cn/iocoder/yudao/framework/security/core/service/SecurityFrameworkServiceImpl.java:71-74 | `hasScope(s)` is `hasAnyScopes([s])`, so it is granted iff a user is logged in and holds `s` |
| `SecurityFrameworkService.ContainsAny` | yudao-framework/yudao-spring-boot-starter-security/src/main/java/cn/iocoder/yudao/framework/security/core/service/SecurityFrameworkServiceImpl.java:82 | `CollUtil.containsAny`: true iff some requested element occurs among the owned ones |
| `SecurityFrameworkService.PermissionsDependOnlyOnUserId` | yudao-framework/yudao-spring-boot-starter-security/src/main/java/cn/iocoder/yudao/framework/security/core/service/SecurityFrameworkServiceImpl.java:56-69 | permission and role decisions depend on the login user only through its id: no local filtering by scopes or type |
| `SecurityFrameworkService.AnonymousChecksStillCallApi` | yudao-framework/yudao-spring-boot-starter-security/src/main/java/cn/iocoder/yudao/framework/security/core/service/SecurityFrameworkServiceImpl.java:58 | with no login user the API is still called, with an absent id; there is no local shortcut |
| `SecurityFrameworkService.ScopesIndependentOfApi` | yudao-framework/yudao-spring-boot-starter-security/src/main/java/cn/iocoder/yudao/framework/security/core/service/SecurityFrameworkServiceImpl.java:77-83 | the scope decision is the same whatever `PermissionApi` is injected |
| `SecurityFrameworkService.ScopesAnyOfSplits` | yudao-framework/yudao-spring-boot-starter-security/src/main/java/cn/iocoder/yudao/framework/security/core/service/SecurityFrameworkServiceImpl.java:82 | any-of: a scope check on `a + b` is granted iff it is granted on `a` or on `b` |
| `SecurityFrameworkService.NoScopesNoGrant` | yudao-framework/yudao-spring-boot-starter-security/src/main/java/cn/iocoder/yudao/framework/security/core/service/SecurityFrameworkServiceImpl.java:78-82 | an empty request, or a user with no scopes, is never granted |
| `PreAuthenticatedAspect.Around` | yudao-framework/yudao-spring-boot-starter-security/src/main/java/cn/iocoder/yudao/framework/security/core/aop/PreAuthenticatedAspect.java:38-44 | no login user: `UNAUTHORIZED` service exception and the body runs zero times; otherwise the body runs exactly once and its outcome (value or exception) is returned unchanged |
| `PreAuthenticatedAspect.DecisionDependsOnlyOnPresence` | yudao-framework/yudao-spring-boot-starter-security/src/main/java/cn/iocoder/yudao/framework/security/core/aop/PreAuthenticatedAspect.java:39-43 | which user is logged in does not matter, only that one is; the annotation is not read |
| `PreAuthenticatedAspect.RejectionIgnoresBody` | yudao-framework/yudao-spring-boot-starter-security/src/main/java/cn/iocoder/yudao/framework/security/core/aop/PreAuthenticatedAspect.java:40-42 | a rejected call is the same whatever the wrapped body would have done |
| `IdTypeEnvironmentPostProcessor.GetDbType` | yudao-framework/yudao-spring-boot-starter-mybatis/src/main/java/cn/iocoder/yudao/framework/mybatis/config/IdTypeEnvironmentPostProcessor.java:170-180 | no database type exactly when the primary name is empty/missing or that datasource's url is empty/missing; otherwise the type detected from that url |
| `IdTypeEnvironmentPostProcessor.GetIdType` | yudao-framework/yudao-spring-boot-starter-mybatis/src/main/java/cn/iocoder/yudao/framework/mybatis/config/IdTypeEnvironmentPostProcessor.java:136-138 | `null` (`Missing`) exactly when no source defines the key or its text is empty; an `IdType` object, or a text naming a constant, gives that constant; any other text fails the conversion |
| `IdTypeEnvironmentPostProcessor.DriverDelegateClass` | yudao-framework/yudao-spring-boot-starter-mybatis/src/main/java/cn/iocoder/yudao/framework/mybatis/config/IdTypeEnvironmentPostProcessor.java:150-163 | a non-empty delegate exactly for PostgreSQL, Oracle, Oracle 12c, SQL Server and SQL Server 2005 |
| `IdTypeEnvironmentPostProcessor.ReplacementIdType` | yudao-framework/yudao-spring-boot-starter-mybatis/src/main/java/cn/iocoder/yudao/framework/mybatis/config/IdTypeEnvironmentPostProcessor.java:125-133 | `INPUT` iff the database is in `INPUT_ID_TYPES`, otherwise `AUTO` |
| `IdTypeEnvironmentPostProcessor.SetIdType` | yudao-framework/yudao-spring-boot-starter-mybatis/src/main/java/cn/iocoder/yudao/framework/mybatis/config/IdTypeEnvironmentPostProcessor.java:140-143 | the id type object is put into the system properties, and nothing else changes |
| `IdTypeEnvironmentPostProcessor.SetJobStoreDriverIfPresent` | yudao-framework/yudao-spring-boot-starter-mybatis/src/main/java/cn/iocoder/yudao/framework/mybatis/config/IdTypeEnvironmentPostProcessor.java:145-168 | the environment afterwards is `AfterJobStoreDriver`: a configured driver kept, a missing one filled from the switch |
| `IdTypeEnvironmentPostProcessor.PostProcessEnvironment` | yudao-framework/yudao-spring-boot-starter-mybatis/src/main/java/cn/iocoder/yudao/framework/mybatis/config/IdTypeEnvironmentPostProcessor.java:105-134 | the environment afterwards, the `SqlConstants.init` argument and the conversion failure are those of `Process` |
| `IdTypeEnvironmentPostProcessor.NoDbTypeLeavesEnvironmentUnchanged` | yudao-framework/yudao-spring-boot-starter-mybatis/src/main/java/cn/iocoder/yudao/framework/mybatis/config/IdTypeEnvironmentPostProcessor.java:106-111 | without a detectable database nothing changes and `SqlConstants.init` is not called |
| `IdTypeEnvironmentPostProcessor.ConfiguredDriverKept` | yudao-framework/yudao-spring-boot-starter-mybatis/src/main/java/cn/iocoder/yudao/framework/mybatis/config/IdTypeEnvironmentPostProcessor.java:145-149 | a non-empty configured driver delegate is never overwritten |
| `IdTypeEnvironmentPostProcessor.MissingDriverFilledIn` | yudao-framework/yudao-spring-boot-starter-mybatis/src/main/java/cn/iocoder/yudao/framework/mybatis/config/IdTypeEnvironmentPostProcessor.java:113-167 | with a database detected and no driver configured, the needed delegate is written whatever the id type; other databases get no driver key |
| `IdTypeEnvironmentPostProcessor.IdTypeKeptUnlessNone` | yudao-framework/yudao-spring-boot-starter-mybatis/src/main/java/cn/iocoder/yudao/framework/mybatis/config/IdTypeEnvironmentPostProcessor.java:120-124 | the id-type key is untouched unless the id type reads `NONE` (absent or any other value is left alone) |
| `IdTypeEnvironmentPostProcessor.NoneIdTypeReplaced` | yudao-framework/yudao-spring-boot-starter-mybatis/src/main/java/cn/iocoder/yudao/framework/mybatis/config/IdTypeEnvironmentPostProcessor.java:125-133 | a `NONE` id type becomes `INPUT` iff the database is a sequence database, `AUTO` otherwise |
| `IdTypeEnvironmentPostProcessor.OnlyTwoSystemPropertiesWritten` | yudao-framework/yudao-spring-boot-starter-mybatis/src/main/java/cn/iocoder/yudao/framework/mybatis/config/IdTypeEnvironmentPostProcessor.java:140-166 | only the system-properties layer changes, and only at the id-type and driver keys |
| `IdTypeEnvironmentPostProcessor.ReplacementTakesEffect` | yudao-framework/yudao-spring-boot-starter-mybatis/src/main/java/cn/iocoder/yudao/framework/mybatis/config/IdTypeEnvironmentPostProcessor.java:136-141 | unless a higher-precedence source pins it, the id type then reads as the replacement |
| `IdTypeEnvironmentPostProcessor.ProcessIdempotent` | yudao-framework/yudao-spring-boot-starter-mybatis/src/main/java/cn/iocoder/yudao/framework/mybatis/config/IdTypeEnvironmentPostProcessor.java:105-168 | a second run changes nothing more, in every environment: also when the id type is set ahead of the system properties (the same value is written again) or fails conversion |
| `NumberSerializer.Serialize` | yudao-framework/yudao-spring-boot-starter-web/src/main/java/cn/iocoder/yudao/framework/jackson/core/databind/NumberSerializer.java:40-48 | a JSON number iff strictly between the safe bounds, holding the value; otherwise a JSON string whose decimal text parses back to the value |
| `NumberSerializer.StringBranchIsDecimalText` | yudao-framework/yudao-spring-boot-starter-web/src/main/java/cn/iocoder/yudao/framework/jackson/core/databind/NumberSerializer.java:45-46 | the string branch writes `Long.toString` of the value |
| `NumberSerializer.BoundsAreStrings` | yudao-framework/yudao-spring-boot-starter-web/src/main/java/cn/iocoder/yudao/framework/jackson/core/databind/NumberSerializer.java:31-43 | the bounds ±9007199254740991 go to the string branch; their inner neighbours stay numbers |
| `NumberSerializer.ChoiceSymmetricUnderNegation` | yudao-framework/yudao-spring-boot-starter-web/src/main/java/cn/iocoder/yudao/framework/jackson/core/databind/NumberSerializer.java:31-43 | the number/string choice is the same for `v` and `-v` (`v` not `Long.MIN_VALUE`) |
| `NumberSerializer.StartupValueRoundTrips` | yudao-framework/yudao-spring-boot-starter-web/src/main/java/cn/iocoder/yudao/framework/jackson/config/YudaoJacksonAutoConfiguration.java:57-63 | -9007199254740992 is written as a string that reads back as -9007199254740992 |
| `DecimalText.IntTextRoundTrip` | yudao-framework/yudao-spring-boot-starter-web/src/main/java/cn/iocoder/yudao/framework/jackson/core/databind/NumberSerializer.java:46 | reading the decimal text of any integer gives it back |
| `IntegerListTypeHandler.Encode` | yudao-framework/yudao-spring-boot-starter-mybatis/src/main/java/cn/iocoder/yudao/framework/mybatis/core/type/IntegerListTypeHandler.java:27-38 | a list binds text, `null` binds SQL NULL |
| `IntegerListTypeHandler.Decode` | yudao-framework/yudao-spring-boot-starter-mybatis/src/main/java/cn/iocoder/yudao/framework/mybatis/core/type/IntegerListTypeHandler.java:58-63 | SQL NULL reads as `null` (not an empty list); `""` as the empty list; otherwise a list exactly when every comma-separated field is a decimal `int`, with one element per field in field order, and a `NumberFormatException` when some field is not |
| `IntegerListTypeHandler.GetResultByName` | yudao-framework/yudao-spring-boot-starter-mybatis/src/main/java/cn/iocoder/yudao/framework/mybatis/core/type/IntegerListTypeHandler.java:40-44 | reads the first column whose label equals the requested name ignoring case, as JDBC's `ResultSet` getters match labels, and decodes it with `Decode`; fails iff no label matches |
| `IntegerListTypeHandler.LabelCaseIgnored` | yudao-framework/yudao-spring-boot-starter-mybatis/src/main/java/cn/iocoder/yudao/framework/mybatis/core/type/IntegerListTypeHandler.java:40-44 | a column labelled `IDS` read as `ids` is found and `"1"` decodes to `[1]` |
| `IntegerListTypeHandler.GetResultByIndex` | yudao-framework/yudao-spring-boot-starter-mybatis/src/main/java/cn/iocoder/yudao/framework/mybatis/core/type/IntegerListTypeHandler.java:46-50 | reads the 1-based column and decodes it with `Decode`; an index out of range fails |
| `IntegerListTypeHandler.GetResultCallable` | yudao-framework/yudao-spring-boot-starter-mybatis/src/main/java/cn/iocoder/yudao/framework/mybatis/core/type/IntegerListTypeHandler.java:52-56 | reads the 1-based OUT parameter and decodes it with `Decode` |
| `IntegerListTypeHandler.DecodeEncode` | yudao-framework/yudao-spring-boot-starter-mybatis/src/main/java/cn/iocoder/yudao/framework/mybatis/core/type/IntegerListTypeHandler.java:28-62 | reading back a stored list gives the same list, order and duplicates kept; `null` gives `null` |
| `IntegerListTypeHandler.EncodedCommaCount` | yudao-framework/yudao-spring-boot-starter-mybatis/src/main/java/cn/iocoder/yudao/framework/mybatis/core/type/IntegerListTypeHandler.java:25-37 | the text of an n-element list (n >= 1) holds exactly n - 1 commas |
| `XssStringJsonSerializer.Serialize` | yudao-framework/yudao-spring-boot-starter-web/src/main/java/cn/iocoder/yudao/framework/xss/core/json/XssStringJsonSerializer.java:34-44 | `null` writes nothing; otherwise exactly one write, of the value when XSS is off and of the cleaned value when on; the cleaner is called at most once, only for a non-null value with XSS on |
| `XssStringJsonSerializer.DisabledIgnoresCleaner` | yudao-framework/yudao-spring-boot-starter-web/src/main/java/cn/iocoder/yudao/framework/xss/core/json/XssStringJsonSerializer.java:37-42 | with XSS off the output does not depend on the cleaner |
| `XssStringJsonSerializer.EnabledWithIdentityCleanerWritesVerbatim` | yudao-framework/yudao-spring-boot-starter-web/src/main/java/cn/iocoder/yudao/framework/xss/core/json/XssStringJsonSerializer.java:39-42 | cleaning is the only difference between the two settings |

## Left out

- The login-user holder (`SecurityFrameworkUtils`) and its thread-local propagation into asynchronous work: concurrency; the current login user is an argument instead.
- `PermissionApi`, `JdbcUtils.getDbType`, `XssCleaner.clean` and the wrapped method body: code not part of this model, taken as arbitrary functions; failures of `PermissionApi` (a remote call) are not modelled and would propagate as exceptions.
- `SqlConstants.init`: its effect on static SQL constants is not modelled; only the database it is called with is recorded.
- `log.info` logging.
- `GlobalErrorCodeConstants` is not part of this model; `UNAUTHORIZED` is represented by its code, 401, and its message is not modelled.
- Spring's property resolution: `${...}` placeholders are not resolved, and the lenient enum converter is narrowed to the constant name in upper or lower case; an empty text converts to `null` as in Spring, other spellings read as a conversion failure.
- `DbType`: only the constants the decisions name, plus MySQL-like ones; every other constant behaves as `OTHER`.
- `NumberSerializer` is registered only for `Long`/`long`; other `Number` subclasses, whose `longValue()` may truncate, are not modelled.
- `IntegerListTypeHandler`: `null` elements inside a list, and the trimming split of the real helper, which trims fields and drops empty ones, are not modelled; here a field with spaces or an empty field (`"1,,2"`, `"1,"`) reads as a `NumberFormatException`, where the real helper would give `[1, 2]` and `[1]`. `Integer.parseInt` also accepts non-ASCII Unicode decimal digits, which the model's parse rejects.
- The JDBC driver's own behaviour (type conversion in `getString`, statement binding) beyond returning a column's text or failing when no column label matches.
- IntegerListTypeHandler.GetResultByName: label matching folds only ASCII letters `A`-`Z`; the case folding of non-ASCII letters that a driver's `equalsIgnoreCase` applies is not modelled.
