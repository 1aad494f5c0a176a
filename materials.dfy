/** The engineering materials catalog and its yield-strength lookup. */
module Materials {
  import opened Base

  datatype Category = Steel | Stainless | Aluminum | CastIron | Brass | Bronze

  /** A catalog entry: display name, yield strength in MPa, category. */
  datatype Material = Material(name: string, sigmaY: real, category: Category)

  const MATERIALS: map<string, Material> := map[
    "Steel_1018" := Material("Low Carbon Steel (1018)", 370.0, Steel),
    "Steel_4140" := Material("Alloy Steel (4140)", 415.0, Steel),
    "Steel_4340" := Material("Alloy Steel (4340)", 470.0, Steel),
    "Steel_8.8" := Material("Grade 8.8 Bolt Steel", 640.0, Steel),
    "Steel_10.9" := Material("Grade 10.9 Bolt Steel", 900.0, Steel),
    "Steel_12.9" := Material("Grade 12.9 Bolt Steel", 1080.0, Steel),
    "SS_304" := Material("Stainless Steel 304", 215.0, Stainless),
    "SS_316" := Material("Stainless Steel 316", 205.0, Stainless),
    "Al_6061_T6" := Material("Aluminum 6061-T6", 275.0, Aluminum),
    "Al_7075_T6" := Material("Aluminum 7075-T6", 505.0, Aluminum),
    "Al_2024_T3" := Material("Aluminum 2024-T3", 345.0, Aluminum),
    "Cast_Iron" := Material("Gray Cast Iron", 275.0, CastIron),
    "Brass" := Material("Brass (C36000)", 125.0, Brass),
    "Bronze" := Material("Phosphor Bronze", 345.0, Bronze)
  ]

  /** get_material_yield_strength: the catalog's yield strength, or an
      error naming the unknown key. */
  function GetMaterialYieldStrength(key: string): (r: Result<real, EngineError>)
    ensures r.Success? <==> key in MATERIALS
    ensures r.Success? ==> r.value == MATERIALS[key].sigmaY
    ensures r.Failure? ==> r.error == MaterialNotFound(key)
  {
    if key in MATERIALS then Success(MATERIALS[key].sigmaY) else Failure(MaterialNotFound(key))
  }

  /** Every catalog yield strength lies between brass (125 MPa) and grade
      12.9 bolt steel (1080 MPa); in particular it is positive, so a catalog
      material never makes the engagement solvers' allowable stress vanish. */
  lemma CatalogYieldBounds(key: string)
    requires GetMaterialYieldStrength(key).Success?
    ensures 125.0 <= GetMaterialYieldStrength(key).value <= 1080.0
  {
  }

  /** Both ends of the range are attained. */
  lemma CatalogYieldExtremes()
    ensures GetMaterialYieldStrength("Brass") == Success(125.0)
    ensures GetMaterialYieldStrength("Steel_12.9") == Success(1080.0)
  {
  }
}
