/** The configurable properties of a ping session (core/settings.go). Go's
    `int` fields are 64 bits wide. */
module Config {
  import opened Ints

  /** Settings. isMaxCountDefault and isDeadlineDefault say that maxCount and
      deadline were left at their defaults; they exist only in the revision
      the tests are written against and are needed to tell an explicit
      non-positive value from the "disabled" default. */
  datatype Settings = Settings(
    ttl: int64,
    maxCount: int64,
    interval: int64,
    timeout: int64,
    deadline: int64,
    isPrivileged: bool,
    verbose: bool,
    prettyPrint: bool,
    isMaxCountDefault: bool,
    isDeadlineDefault: bool)

  /** DefaultSettings: TTL 64, one request per second, 10 s timeout, no count
      limit and no deadline (both -1), unprivileged. */
  function DefaultSettings(): (s: Settings)
    ensures Validate(s)
    ensures s.maxCount <= 0 && s.deadline <= 0
    ensures !s.isPrivileged
  {
    Settings(
      ttl := 64,
      maxCount := -1,
      interval := 1,
      timeout := 10,
      deadline := -1,
      isPrivileged := false,
      verbose := false,
      prettyPrint := false,
      isMaxCountDefault := true,
      isDeadlineDefault := true)
  }

  /** validate: the Go body is not part of this model; the rules are the ones
      the settings tests fix. A time-to-live, a timeout and an interval must be
      positive; a count limit or deadline that was set explicitly must be
      positive. */
  predicate Validate(s: Settings) {
    && s.ttl > 0
    && s.timeout > 0
    && s.interval > 0
    && (s.isMaxCountDefault || s.maxCount > 0)
    && (s.isDeadlineDefault || s.deadline > 0)
  }

  /** The accept/reject cases the settings tests exercise, stated on
      DefaultSettings with one field changed. */
  lemma ValidationCases(v: int64)
    ensures v <= 0 ==> !Validate(DefaultSettings().(ttl := v))
    ensures v > 0 ==> Validate(DefaultSettings().(ttl := v))
    ensures v <= 0 ==> !Validate(DefaultSettings().(timeout := v))
    ensures v > 0 ==> Validate(DefaultSettings().(timeout := v))
    ensures v <= 0 ==> !Validate(DefaultSettings().(interval := v))
    ensures v > 0 ==> Validate(DefaultSettings().(interval := v))
    ensures v <= 0 ==> !Validate(DefaultSettings().(maxCount := v, isMaxCountDefault := false))
    ensures v > 0 ==> Validate(DefaultSettings().(maxCount := v, isMaxCountDefault := false))
    ensures v <= 0 ==> !Validate(DefaultSettings().(deadline := v, isDeadlineDefault := false))
    ensures v > 0 ==> Validate(DefaultSettings().(deadline := v, isDeadlineDefault := false))
  {
  }
}
