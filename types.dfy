/** The report shape `LoveResult` declared in `types.ts`. JavaScript numbers
    are modelled as integers: every number the deterministic path produces
    is one. */
module LoveTypes {

  datatype CompatibilityFactors = CompatibilityFactors(passion: int, trust: int, communication: int, fun: int)

  datatype LogicInsights = LogicInsights(flames: string, numerologyMatch: string, sharedTraits: seq<string>)

  datatype LoveResult = LoveResult(
    percentage: int,
    verdict: string,
    advice: string,
    compatibilityFactors: CompatibilityFactors,
    logicInsights: LogicInsights)
}
