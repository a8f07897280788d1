/** The settings of the two window limiters. */
module WindowSettings {
  import opened Instants
  import opened Int64

  datatype Config = Config(limit: int64, window: int64)

  predicate Positive(c: Config) {
    c.limit > 0 && c.window > 0
  }

  function WithDefaults(c: Config): (r: Config)
    ensures Positive(r)
    ensures if c.limit > 0 then r.limit == c.limit else r.limit == 60
    ensures if c.window > 0 then r.window == c.window else r.window == MINUTE
  {
    Config(if c.limit <= 0 then 60 else c.limit, if c.window <= 0 then MINUTE else c.window)
  }

  type Settings = c: Config | Positive(c) witness Config(1, 1)
}
