/** The package-wide constants: default keys, the two source tags and the environment-variable blocklists. */
module Consts {
  import opened Text

  // Default attribute and field keys.
  const DefaultContextKey: string := "ctx"
  const DefaultLevelKey: string := "level"
  const DefaultLogEventSourceKey: string := "logEventSource"
  const DefaultSpanIdKey: string := "spanId"
  const DefaultSpanKey: string := "span"
  const DefaultTimestampKey: string := "timestamp"

  // Source tags: what each forwarder writes under the source key.
  const DefaultOtelSourceValue: string := "otelApi"
  const DefaultZapSourceValue: string := "zapApi"

  /** Variable names that must not be logged, compared ignoring case. */
  const BlockedEnvVars: seq<string> := [
    "AUTH_PASS",
    "AWS_ACCESS_KEY",
    "AWS_SECRET_ACCESS_KEY",
    "DB_PASS",
    "DB_PASSWORD",
    "GOOGLE_APPLICATION_CREDENTIALS",
    "JDBC_DATABASE_PASSWORD",
    "KAFKA_PASSWORD",
    "MARIADB_ROOT_PASSWORD",
    "MYSQL_PWD",
    "MYSQL_ROOT_PASSWORD",
    "PGPASSFILE",
    "PGPASSWORD",
    "PGSSLKEY",
    "PIN",
    "POSTGRES_PASSWORD",
    "PS1",
    "PS2",
    "SYSTEM_ACCESSTOKEN",
    "VISUAL"
  ]

  /** Substrings that make a variable name unloggable, compared ignoring case. */
  const BlockedEnvVarSubstrings: seq<string> := [
    "access_key",
    "accesstoken",
    "admin_token",
    "auth_pass",
    "authentication",
    "credentials",
    "database_password",
    "jwt",
    "kerberos",
    "keystore",
    "ldap",
    "openssl",
    "passwd",
    "password",
    "password_file",
    "root_password",
    "rsa",
    "secret",
    "sslkey",
    "token",
    "truststore"
  ]

  /** A key a getter can fall back to: not blank and without surrounding white space. */
  predicate UsableDefault(k: string) {
    k != "" && IsTrimmed(k)
  }

  /** Every default key and tag survives the getters' TrimSpace check unchanged. */
  lemma DefaultsUsable()
    ensures UsableDefault(DefaultContextKey) && UsableDefault(DefaultLevelKey)
    ensures UsableDefault(DefaultLogEventSourceKey) && UsableDefault(DefaultSpanIdKey)
    ensures UsableDefault(DefaultSpanKey) && UsableDefault(DefaultTimestampKey)
    ensures UsableDefault(DefaultOtelSourceValue) && UsableDefault(DefaultZapSourceValue)
  {
  }

  /** The two tags differ, and so do the span key and the context key. */
  lemma DefaultsDistinct()
    ensures DefaultOtelSourceValue != DefaultZapSourceValue
    ensures DefaultSpanKey != DefaultContextKey
  {
  }

  /** The exact-match list has twenty entries and the substring list twenty-one. */
  lemma BlocklistSizes()
    ensures |BlockedEnvVars| == 20
    ensures |BlockedEnvVarSubstrings| == 21
  {
  }

  /** Every substring entry is already lower-case. */
  lemma SubstringsLowerCase()
    ensures forall j :: 0 <= j < |BlockedEnvVarSubstrings| ==> IsLower(BlockedEnvVarSubstrings[j])
  {
    forall j | 0 <= j < |BlockedEnvVarSubstrings|
      ensures IsLower(BlockedEnvVarSubstrings[j])
    {
      if j < 7 {
        SubstringsLowerBelow(j, 7);
      } else if j < 14 {
        SubstringsLowerBelow(j, 14);
      } else {
        SubstringsLowerBelow(j, 21);
      }
    }
  }

  /** The lower-case check for the entries `hi - 7` up to `hi`, seven at a time. */
  lemma SubstringsLowerBelow(j: int, hi: int)
    requires hi == 7 || hi == 14 || hi == 21
    requires hi - 7 <= j < hi
    ensures IsLower(BlockedEnvVarSubstrings[j])
  {
  }
}
