/**
 * The label keys under which a managed container carries the tool version and
 * the encoded instance parameters. Their text is not part of this model, so
 * they are left uninterpreted; what depends on them being different says so.
 */
module Labels {
  const LABEL_KEY_CLI_VERSION: string
  const LABEL_KEY_PARAMETERS: string

  predicate DistinctKeys() { LABEL_KEY_CLI_VERSION != LABEL_KEY_PARAMETERS }
}
