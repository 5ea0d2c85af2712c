/** The mocked image analysis of script.js: a fixed lookup from an
    infrastructure label to a completion percentage. The image itself is never
    looked at, so it does not appear here. */
module Analysis {
  /** The four options of the per-building "infrastructure type" select. */
  datatype InfrastructureType = Foundation | SuperStructure | Facade | Interiors
  {
    /** The option's `value` attribute, the text `analyzeImage` receives. */
    function Label(): string
    {
      match this
      case Foundation => "foundation"
      case SuperStructure => "super-structure"
      case Facade => "facade"
      case Interiors => "interiors"
    }

    /** The percentage of completion this stage stands for, in [0, 100]. */
    function Percentage(): (p: int)
      ensures 0 < p <= 100 && p % 25 == 0
    {
      match this
      case Foundation => 25
      case SuperStructure => 50
      case Facade => 75
      case Interiors => 100
    }
  }

  /** The object literal `completionMapping`. */
  const CompletionMapping: map<string, int> :=
    map["foundation" := 25, "super-structure" := 50, "facade" := 75, "interiors" := 100]

  /** The own and inherited properties of a plain object: every object
      literal inherits these names from `Object.prototype`, so looking one of
      them up in `completionMapping` finds a function (or, for `__proto__`,
      the prototype itself) rather than `undefined`. */
  const ObjectPrototypeNames: set<string> := {
    "constructor", "hasOwnProperty", "isPrototypeOf", "propertyIsEnumerable",
    "toString", "toLocaleString", "valueOf", "__proto__",
    "__defineGetter__", "__defineSetter__", "__lookupGetter__", "__lookupSetter__"}

  /** What `completionMapping[label]` yields: one of the table's numbers, an
      inherited non-number property, or `undefined`. */
  datatype Lookup = Found(value: int) | Inherited | Undefined

  /** The object `analyzeImage` returns. */
  datatype ImageAnalysis = ImageAnalysis(
    constructionActivity: string,
    stageOfConstruction: string,
    percentageOfCompletion: Lookup)

  /** `analyzeImage(image, infrastructureType)`: echoes the label twice and
      looks its percentage up in an object literal. No label throws: one of
      the four option labels gives its stage's number, a name inherited from
      `Object.prototype` gives that non-number property, and any other label
      gives `undefined`. */
  function AnalyzeImage(infrastructureType: string): (r: ImageAnalysis)
    ensures r.constructionActivity == infrastructureType
    ensures r.stageOfConstruction == infrastructureType
    ensures r.percentageOfCompletion.Found? <==>
              exists kind: InfrastructureType :: kind.Label() == infrastructureType
    ensures r.percentageOfCompletion.Found? ==>
              r.percentageOfCompletion.value in {25, 50, 75, 100}
    ensures r.percentageOfCompletion.Inherited? <==> infrastructureType in ObjectPrototypeNames
  {
    var known := infrastructureType in CompletionMapping;
    assert known ==> exists kind: InfrastructureType :: kind.Label() == infrastructureType by {
      if infrastructureType == "foundation" { assert Foundation.Label() == infrastructureType; }
      else if infrastructureType == "super-structure" { assert SuperStructure.Label() == infrastructureType; }
      else if infrastructureType == "facade" { assert Facade.Label() == infrastructureType; }
      else if infrastructureType == "interiors" { assert Interiors.Label() == infrastructureType; }
    }
    ImageAnalysis(
      infrastructureType,
      infrastructureType,
      if known then Found(CompletionMapping[infrastructureType])
      else if infrastructureType in ObjectPrototypeNames then Inherited
      else Undefined)
  }

  /** A label that is neither an option nor an inherited name: its
      percentage is `undefined`, and nothing is thrown. */
  lemma AnalyzeUnknown(infrastructureType: string)
    requires forall kind: InfrastructureType :: kind.Label() != infrastructureType
    requires infrastructureType !in ObjectPrototypeNames
    ensures AnalyzeImage(infrastructureType)
         == ImageAnalysis(infrastructureType, infrastructureType, Undefined)
  {
  }

  /** Every option of the select is analysed to its own stage's percentage. */
  lemma AnalyzeOption(kind: InfrastructureType)
    ensures AnalyzeImage(kind.Label())
         == ImageAnalysis(kind.Label(), kind.Label(), Found(kind.Percentage()))
  {
  }

  /** The four labels are distinct, so the lookup is unambiguous. */
  lemma LabelInjective(a: InfrastructureType, b: InfrastructureType)
    ensures a.Label() == b.Label() <==> a == b
  {
  }

  /** The worked example of the doc comment: "facade" gives 75. */
  lemma FacadeExample()
    ensures AnalyzeImage("facade")
         == ImageAnalysis("facade", "facade", Found(75))
  {
  }
}
