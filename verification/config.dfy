/**
 The render configuration of the visualizer: the active scheme name and the
 line thickness, with the two setters that are its only mutators.
 */
module RenderConfig {
  import opened Palette

  const MinThickness: int := 1
  const MaxThickness: int := 5

  datatype Config = Config(colorScheme: string, lineThickness: int)

  /** The state every reachable configuration is in: a known scheme and a thickness in [1, 5]. */
  predicate Valid(cfg: Config) {
    IsScheme(cfg.colorScheme) && MinThickness <= cfg.lineThickness <= MaxThickness
  }

  /** The configuration at start-up. */
  function Initial(): (cfg: Config)
    ensures Valid(cfg)
    ensures cfg.colorScheme == Vibrant && cfg.lineThickness == 2
  {
    Config(Vibrant, 2)
  }

  function Max(a: int, b: int): int {
    if a >= b then a else b
  }

  function Min(a: int, b: int): int {
    if a <= b then a else b
  }

  /** The thickness the setter stores: the request clamped into [1, 5]. */
  function Clamp(thickness: int): (t: int)
    ensures MinThickness <= t <= MaxThickness
    ensures MinThickness <= thickness <= MaxThickness ==> t == thickness
    ensures thickness < MinThickness ==> t == MinThickness
    ensures thickness > MaxThickness ==> t == MaxThickness
  {
    Max(MinThickness, Min(thickness, MaxThickness))
  }

  /** Clamping is idempotent and monotone, and only moves a value toward the range. */
  lemma ClampProperties(a: int, b: int)
    ensures Clamp(Clamp(a)) == Clamp(a)
    ensures a <= b ==> Clamp(a) <= Clamp(b)
    ensures Clamp(a) == a <==> MinThickness <= a <= MaxThickness
  {
  }

  /** Sets the line thickness, clamped; the scheme is left as it was. */
  function SetLineThickness(cfg: Config, thickness: int): (cfg': Config)
    ensures cfg'.colorScheme == cfg.colorScheme
    ensures MinThickness <= cfg'.lineThickness <= MaxThickness
    ensures MinThickness <= thickness <= MaxThickness ==> cfg'.lineThickness == thickness
    ensures thickness < MinThickness ==> cfg'.lineThickness == MinThickness
    ensures thickness > MaxThickness ==> cfg'.lineThickness == MaxThickness
    ensures Valid(cfg) ==> Valid(cfg')
  {
    cfg.(lineThickness := Clamp(thickness))
  }

  /** Setting the same thickness twice is the same as setting it once. */
  lemma SetLineThicknessIdempotent(cfg: Config, thickness: int)
    ensures SetLineThickness(SetLineThickness(cfg, thickness), thickness) == SetLineThickness(cfg, thickness)
    ensures SetLineThickness(cfg, SetLineThickness(cfg, thickness).lineThickness) == SetLineThickness(cfg, thickness)
  {
  }

  /** Selects a scheme by name; an unknown name leaves the configuration untouched. */
  function SetColorScheme(cfg: Config, name: string): (cfg': Config)
    ensures cfg'.lineThickness == cfg.lineThickness
    ensures IsScheme(name) ==> cfg'.colorScheme == name
    ensures !IsScheme(name) ==> cfg' == cfg
    ensures cfg' != cfg ==> IsScheme(name) && cfg'.colorScheme == name
    ensures Valid(cfg) ==> Valid(cfg')
  {
    if name in ColorSchemes then cfg.(colorScheme := name) else cfg
  }

  /** The only names that change the scheme are the three built-in ones. */
  lemma SetColorSchemeAccepts(cfg: Config, name: string)
    requires Valid(cfg)
    ensures SetColorScheme(cfg, name).colorScheme == name <==>
      name == Vibrant || name == Pastel || name == Mono || name == cfg.colorScheme
  {
    SchemesWellFormed();
  }
}
