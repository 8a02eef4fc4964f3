# ONgDB test container, modelled in Dafny

`OngdbContainer` configures a disposable ONgDB database container for
integration tests. Most of the class hands work to a generic container
runtime. This project models the logic the class adds on top of that runtime:

- **Configuration-key translation** (`ConfigKey`). A dotted ONgDB setting
  such as `dbms.security.procedures.unrestricted` becomes the environment
  variable the image reads. The translation adds the prefix `NEO4J_`,
  doubles every `_`, and then turns every `.` into a single `_`. It is
  modelled as a replace chain (`ReplaceAll`) and proved equal to a
  per-character reference definition (`Escaped`).
- **Authentication and environment** (`Ongdb.OngdbContainer`). A class with
  the admin password (`Option<string>`: `None` stands for Java's `null`, and
  the default is `"password"`), the environment map, the exposed ports and
  the readiness descriptor. `WithAdminPassword`, `WithoutAuthentication`,
  `WithConfig` and `Configure` update these fields. `Configure` writes
  `NEO4J_AUTH`: `"none"` when the password is null or empty, otherwise
  `"neo4j/" + password`.
- **Ports and URLs** (`Ongdb`, `Urls`, `Decimal`). There are three declared
  ports: Bolt 7687, HTTP 7474 and HTTPS 7473. The liveness set is the image
  of those ports under the runtime's port mapping. Each URL is
  `scheme://host:port`. The runtime's `getHost()` and `getMappedPort` are
  parameters here: a host string and a function `int -> int`. `ParseUrl`
  reads such a URL back into its parts.
- **Readiness descriptor**. A constant record: a log-banner condition for the
  Bolt port, an HTTP 200 condition on the HTTP port, and a two-minute timeout.

Modules: `Wrappers` (Option), `Decimal` (integer to decimal text and back),
`ConfigKey`, `Urls`, `Ongdb`.

## Model

| member | source | states |
|---|---|---|
| `ConfigKey.FormatConfigurationKey` | modules/ongdb/src/main/java/org/testcontainers/containers/OngdbContainer.java:208-214 | the result starts with `NEO4J_`, and the rest is the key rewritten character by character (`_` to `__`, `.` to `_`, every other character kept) |
| `ConfigKey.ReplaceAll` | modules/ongdb/src/main/java/org/testcontainers/containers/OngdbContainer.java:212-213 | replacing a character by text that does not contain it leaves none of it behind |
| `ConfigKey.TwoPassIsOnePass` | modules/ongdb/src/main/java/org/testcontainers/containers/OngdbContainer.java:211-213 | doubling `_` and then rewriting `.` equals the per-character translation, so a `.` becomes exactly one `_` |
| `ConfigKey.FormatLength` | modules/ongdb/src/main/java/org/testcontainers/containers/OngdbContainer.java:209-213 | the output length is 6 + the key's length + the number of `_` in the key |
| `ConfigKey.FormatHasNoDot` | modules/ongdb/src/main/java/org/testcontainers/containers/OngdbContainer.java:211-213 | no `.` survives translation |
| `ConfigKey.EscapedUnderscores` | modules/ongdb/src/main/java/org/testcontainers/containers/OngdbContainer.java:211-213 | the text after the prefix has two `_` per input `_` plus one per input `.` |
| `ConfigKey.FormatUnderscores` | modules/ongdb/src/main/java/org/testcontainers/containers/OngdbContainer.java:209-213 | the whole translated key has one `_` from the prefix, plus two per input `_` and one per input `.` |
| `ConfigKey.FormatKeepsOthers` | modules/ongdb/src/main/java/org/testcontainers/containers/OngdbContainer.java:211-213 | after the prefix, the characters other than `_` and `.` are exactly the key's, in the same order |
| `ConfigKey.FormatEmpty` | modules/ongdb/src/main/java/org/testcontainers/containers/OngdbContainer.java:208-214 | the empty key translates to exactly `NEO4J_` |
| `ConfigKey.FormatDocumentedExample` | modules/ongdb/src/main/java/org/testcontainers/containers/OngdbContainer.java:187-214 | the documented key `dbms.security.procedures.unrestricted` becomes `NEO4J_dbms_security_procedures_unrestricted` |
| `ConfigKey.FormatSmallExample` | modules/ongdb/src/main/java/org/testcontainers/containers/OngdbContainer.java:208-214 | `a.b_c` becomes `NEO4J_a_b__c` |
| `ConfigKey.FormatAlreadyPrefixed` | modules/ongdb/src/main/java/org/testcontainers/containers/OngdbContainer.java:208-214 | for every key of the form `NEO4J_` + rest, the result is `NEO4J_NEO4J__` + the translation of rest: the prefix is added again and the old prefix's `_` is doubled, with no special case |
| `ConfigKey.FormatNotIdempotent` | modules/ongdb/src/main/java/org/testcontainers/containers/OngdbContainer.java:208-214 | translating a translated key never gives that key back |
| `ConfigKey.FormatNotInjective` | modules/ongdb/src/main/java/org/testcontainers/containers/OngdbContainer.java:211-213 | `a._b` and `a_.b` are different keys with the same translation |
| `Decimal.NatToString` | modules/ongdb/src/main/java/org/testcontainers/containers/OngdbContainer.java:113 | a port is written as a non-empty digit string with no leading zero |
| `Decimal.ParseIntToString` | modules/ongdb/src/main/java/org/testcontainers/containers/OngdbContainer.java:113 | reading the written port back gives the port |
| `Decimal.IntToStringParseInt` | modules/ongdb/src/main/java/org/testcontainers/containers/OngdbContainer.java:113 | the reader accepts only canonical decimal text (no leading zero, no `-0`), so any text it accepts is exactly how that value is written |
| `Urls.ParseComposeUrl` | modules/ongdb/src/main/java/org/testcontainers/containers/OngdbContainer.java:112-128 | a URL `scheme://host:port` is read back into the same scheme, host and port, whatever the host contains |
| `Urls.ComposeParsedUrl` | modules/ongdb/src/main/java/org/testcontainers/containers/OngdbContainer.java:112-128 | any text the reader accepts is exactly `scheme://host:port` composed from the parts it returns, so the parts pin the URL text |
| `Ongdb.BoltUrl` | modules/ongdb/src/main/java/org/testcontainers/containers/OngdbContainer.java:112-114 | the URL is exactly `bolt://` + host + `:` + the mapped port of 7687 in decimal; it reads back as those parts; it contains `%` only if the host does |
| `Ongdb.HttpUrl` | modules/ongdb/src/main/java/org/testcontainers/containers/OngdbContainer.java:119-121 | the URL is exactly `http://` + host + `:` + the mapped port of 7474 in decimal; it reads back as those parts; it contains `%` only if the host does |
| `Ongdb.HttpsUrl` | modules/ongdb/src/main/java/org/testcontainers/containers/OngdbContainer.java:126-128 | the URL is exactly `https://` + host + `:` + the mapped port of 7473 in decimal; it reads back as those parts; it contains `%` only if the host does |
| `Ongdb.UrlScenario` | modules/ongdb/src/main/java/org/testcontainers/containers/OngdbContainer.java:112-128 | on `localhost` with ports 32768, 32769 and 32770 the three URLs are `bolt://localhost:32768`, `http://localhost:32769` and `https://localhost:32770` |
| `Ongdb.LivenessCheckPortNumbers` | modules/ongdb/src/main/java/org/testcontainers/containers/OngdbContainer.java:93-99 | the liveness set is exactly {map(7687), map(7474), map(7473)} |
| `Ongdb.LivenessSize` | modules/ongdb/src/main/java/org/testcontainers/containers/OngdbContainer.java:94-99 | there are at most 3 liveness ports, and exactly 3 if and only if the three mapped ports are pairwise distinct |
| `Ongdb.LivenessIsImageOfDeclared` | modules/ongdb/src/main/java/org/testcontainers/containers/OngdbContainer.java:90-99 | a port is live-checked if and only if it is the mapped value of an exposed port |
| `Ongdb.DefaultWaitStrategy` | modules/ongdb/src/main/java/org/testcontainers/containers/OngdbContainer.java:79-88 | the readiness descriptor has a positive timeout and at least one condition, and its HTTP conditions target exposed ports; it holds the log condition `BoltLogRegex(7687)` (the banner regex of line 80, with the port written in decimal) and the condition HTTP 200 on port 7474 |
| `Ongdb.AuthValue` | modules/ongdb/src/main/java/org/testcontainers/containers/OngdbContainer.java:102-107 | `NEO4J_AUTH` is `"none"` if and only if the password is null or empty |
| `Ongdb.AuthRoundTrip` | modules/ongdb/src/main/java/org/testcontainers/containers/OngdbContainer.java:54-58 | the `neo4j/` value gives back exactly the password, and a disabled password gives none |
| `Ongdb.OngdbContainer.constructor` | modules/ongdb/src/main/java/org/testcontainers/containers/OngdbContainer.java:76-91 | a new container has password `"password"`, an empty environment, the exposed ports 7687, 7474 and 7473, and the fixed readiness descriptor |
| `Ongdb.OngdbContainer.WithAdminPassword` | modules/ongdb/src/main/java/org/testcontainers/containers/OngdbContainer.java:137-141 | the password becomes the argument, nothing else changes, and the container itself is returned |
| `Ongdb.OngdbContainer.WithoutAuthentication` | modules/ongdb/src/main/java/org/testcontainers/containers/OngdbContainer.java:148-150 | the password becomes null and nothing else changes |
| `Ongdb.OngdbContainer.WithConfig` | modules/ongdb/src/main/java/org/testcontainers/containers/OngdbContainer.java:195-199 | the environment entry of the translated key is set to the unchanged value; every other entry and the password stay as they were |
| `Ongdb.OngdbContainer.Configure` | modules/ongdb/src/main/java/org/testcontainers/containers/OngdbContainer.java:102-107 | `NEO4J_AUTH` is set from the password; every other entry stays as it was |
| `Ongdb.DefaultAuthentication` | modules/ongdb/src/main/java/org/testcontainers/containers/OngdbContainer.java:54-58 | a fresh container reports password `"password"` and configures `NEO4J_AUTH` as `"neo4j/password"` |
| `Ongdb.AdminPasswordRoundTrip` | modules/ongdb/src/main/java/org/testcontainers/containers/OngdbContainer.java:202-206 | after `WithAdminPassword(p)` the getter returns `p`, and `NEO4J_AUTH` is `"none"` exactly when `p` is null or empty and otherwise carries `p` |
| `Ongdb.WithoutAuthenticationIsNullPassword` | modules/ongdb/src/main/java/org/testcontainers/containers/OngdbContainer.java:143-150 | `WithoutAuthentication` and `WithAdminPassword(null)` leave the same password (null) and the same environment (`NEO4J_AUTH` = `"none"`) |
| `Ongdb.ConfigEntry` | modules/ongdb/src/main/java/org/testcontainers/containers/OngdbContainer.java:187-199 | on a fresh container, `withConfig` adds one entry: the translated key, which starts with `NEO4J_`, with the value unchanged |

## Left out

- Container lifecycle, image pulling, port allocation, networking and log streaming all belong to the generic container runtime, which is not part of this model. `getHost()` and `getMappedPort` are parameters. The runtime's `addEnv` is modelled as a map update. `addExposedPorts` is modelled as assigning the exposed-port sequence.
- `withDatabase` and `withPlugins` only forward to the runtime's `withCopyFileToContainer`, so they are not modelled. Their two destination paths are kept as the constants `DatabaseDestination` and `PluginsDestination`.
- Readiness polling, the log regex match, the HTTP status request and the timeout are behaviour of the runtime's wait strategies, so they are not modelled. The model keeps only the constant descriptor `DefaultWaitStrategy`. The regex is kept as its text.
- The no-argument constructor, the default image name and tag constants, and the `defaultImage` flag are left out: they are inert data with nothing to verify. The one-argument constructor is modelled.
- `OngdbContainer.GetAdminPassword` has no contract of its own, because it only returns the field. Its property is stated by `AdminPasswordRoundTrip`.
- `BoltUrl`, `HttpUrl`, `HttpsUrl`: the source passes the concatenated URL to `String.format` with no arguments. A `%` in the host would then be read as a format specifier, and the call would change the text or throw. The model is plain concatenation. It assumes the host contains no `%`. The getters' contracts prove that a `%` in the URL can only come from the host.
- `getMappedPort` fails in the runtime when the container is not running. The model treats the mapping as a total function.
- Java `null` keys, values and hosts are not modelled; Dafny strings cannot be null. On a null key, `formatConfigurationKey` throws a NullPointerException. Only the password is nullable (`Option<string>`).
- `ReplaceAll` models Java's regex `replaceAll` only for what the source uses: a pattern that is one literal character, and a replacement with no `$` or `\`.
- The `SELF` generic of the builder methods becomes a method that returns `this`.
- `LivenessSize`: the liveness set has exactly three elements only when the mapping keeps the three ports apart. One might expect exactly three elements; the code collects into a set, so colliding mapped ports collapse.
