/**
 * The menu's dispatch tables: `ApplicationConfig`. A function id such as
 * "2.1.1" names a menu entry; the entry is carried out either by a
 * no-argument service method or by one that takes the user and the scanner.
 * The service methods themselves (console reports) are not part of this
 * model: an `Action` records which one the id dispatches to.
 */
module ApplicationConfig {
  import opened Outcomes
  import opened Entity
  import MethodParameterValidator

  /** A method reference `Service.getInstance()::method`, by the service's class name and the method's name. */
  datatype Action = Action(service: string, methodName: string)

  const FunctionNames: map<string, string> := map[
    "1.1.1" := "〖 详解 BMI 〗",
    "1.1.2" := "〖 详解 WC 〗",
    "1.1.3" := "〖 详解 WHR 〗",
    "1.1.4" := "〖 详解 BFR 〗",
    "1.1.5" := "〖 详解 BRI 〗",
    "1.2.1" := "〖 详解 BMR 〗",
    "1.2.2" := "〖 详解 TDEE 〗",
    "1.3.1" := "〖 详解 BSA 〗",
    "2.1.1" := "〘 计算 BMI 〙",
    "2.1.2" := "〘 计算 WHR 〙",
    "2.1.3" := "〘 计算 BFR 〙",
    "2.1.4" := "〘 计算 BRI 〙",
    "2.2.1" := "〘 计算 BMR 〙",
    "2.2.2" := "〘 计算 TDEE 〙",
    "2.3.1" := "〘 计算 BSA 〙",
    "3.1.1" := "⫷ 分析 BMI ⫸",
    "3.1.2" := "⫷ 分析 WC ⫸",
    "3.1.3" := "⫷ 分析 WHR ⫸",
    "3.1.4" := "⫷ 分析 BFR ⫸",
    "3.1.5" := "⫷ 分析 BRI ⫸",
    "3.2.1" := "⫷ 分析 BMR ⫸",
    "3.2.2" := "⫷ 分析 TDEE ⫸",
    "3.3.1" := "⫷ 分析 BSA ⫸",
    "4.1.1" := "⫷ 对比不同公式得到的 BFR ⫸",
    "4.2.1" := "⫷ 对比不同公式得到的 BMR ⫸",
    "4.3.1" := "⪡ 对比不同公式得到的 BSA ⪢",
    "5.1.1" := "⋘ 查看 体重 理想值 ⋙",
    "5.1.2" := "⋘ 查看 BMI 理想值 ⋙",
    "5.1.3" := "⋘ 查看 WC 理想值 ⋙",
    "5.1.4" := "⋘ 查看 WHR 理想值 ⋙",
    "5.1.5" := "⋘ 查看 BFR 理想值 ⋙",
    "5.1.6" := "⋘ 查看 BRI 理想值 ⋙",
    "5.2.1" := "⋘ 查看 BMR 理想值 ⋙",
    "5.2.2" := "⋘ 查看 TDEE 理想值 ⋙",
    "5.3.1" := "⋘ 查看 BSA 理想值 ⋙"
  ]

  const Runnables: map<string, Action> := map[
    "1.1.1" := Action("IntroductionService", "introduceBMI"),
    "1.1.2" := Action("IntroductionService", "introduceWaistCircumference"),
    "1.1.3" := Action("IntroductionService", "introduceWHR"),
    "1.1.4" := Action("IntroductionService", "introduceBFR"),
    "1.1.5" := Action("IntroductionService", "introduceBRI"),
    "1.2.1" := Action("IntroductionService", "introduceBMR"),
    "1.2.2" := Action("IntroductionService", "introduceTDEE"),
    "1.3.1" := Action("IntroductionService", "introduceBSA"),
    "5.1.2" := Action("ReferenceService", "checkIdealBMI"),
    "5.1.3" := Action("ReferenceService", "checkIdealWaistCircumference"),
    "5.1.4" := Action("ReferenceService", "checkIdealWHR"),
    "5.1.5" := Action("ReferenceService", "checkIdealBFR"),
    "5.1.6" := Action("ReferenceService", "checkIdealBRI"),
    "5.2.1" := Action("ReferenceService", "checkIdealBMR"),
    "5.2.2" := Action("ReferenceService", "checkIdealTDEE"),
    "5.3.1" := Action("ReferenceService", "checkIdealBSA")
  ]

  const BiConsumers: map<string, Action> := map[
    "2.1.1" := Action("CalculationService", "showBMICalculation"),
    "2.1.2" := Action("CalculationService", "showWHRCalculation"),
    "2.1.3" := Action("CalculationService", "showBFRCalculation"),
    "2.1.4" := Action("CalculationService", "showBRICalculation"),
    "2.2.1" := Action("CalculationService", "showBMRCalculation"),
    "2.2.2" := Action("CalculationService", "showTDEECalculation"),
    "2.3.1" := Action("CalculationService", "showBSACalculation"),
    "3.1.1" := Action("AnalysisService", "analyzeBMI"),
    "3.1.2" := Action("AnalysisService", "analyzeWaistCircumference"),
    "3.1.3" := Action("AnalysisService", "analyzeWHR"),
    "3.1.4" := Action("AnalysisService", "analyzeBFR"),
    "3.1.5" := Action("AnalysisService", "analyzeBRI"),
    "3.2.1" := Action("AnalysisService", "analyzeBMR"),
    "3.2.2" := Action("AnalysisService", "analyzeTDEE"),
    "3.3.1" := Action("AnalysisService", "analyzeBSA"),
    "4.1.1" := Action("ComparisonService", "compareVariousEquationsOfBFR"),
    "4.2.1" := Action("ComparisonService", "compareVariousEquationsOfBMR"),
    "4.3.1" := Action("ComparisonService", "compareVariousEquationsOfBSA"),
    "5.1.1" := Action("ReferenceService", "checkIdealWeight")
  ]
  /**
   * `Map.ofEntries` maps refuse `null`: `containsKey(null)` and `get(null)`
   * throw NullPointerException.
   */
  function ContainsKey<V>(m: map<string, V>, functionId: Nullable<string>): (r: Outcome<bool>)
    ensures r.Ok? <==> functionId.NonNull?
    ensures r.IsFailure() ==> r == NullPtr
    ensures r.Ok? ==> (r.value <==> functionId.get in m)
  {
    if functionId.Null? then NullPtr else Ok(functionId.get in m)
  }

  /** `Map.get`: the value under the key, `null` for a missing key, NullPointerException for a `null` key. */
  function Get<V>(m: map<string, V>, functionId: Nullable<string>): (r: Outcome<Nullable<V>>)
    ensures r.Ok? <==> functionId.NonNull?
    ensures r.IsFailure() ==> r == NullPtr
    ensures r.Ok? ==> (r.value.NonNull? <==> functionId.get in m)
    ensures r.Ok? && r.value.NonNull? ==> r.value.get == m[functionId.get]
  {
    if functionId.Null? then NullPtr
    else if functionId.get in m then Ok(NonNull(m[functionId.get]))
    else Ok(Null)
  }

  /** `isValidFunctionId`: the id is a key of the name table. */
  function IsValidFunctionId(functionId: Nullable<string>): (r: Outcome<bool>)
    ensures r.IsFailure() <==> functionId.Null?
    ensures r.Ok? ==> (r.value <==> functionId.get in FunctionNames)
  {
    ContainsKey(FunctionNames, functionId)
  }

  /** `hasRunnableFunction`: the id dispatches to a no-argument method. */
  function HasRunnableFunction(functionId: Nullable<string>): (r: Outcome<bool>)
    ensures r.IsFailure() <==> functionId.Null?
    ensures r.Ok? ==> (r.value <==> functionId.get in Runnables)
  {
    ContainsKey(Runnables, functionId)
  }

  /** `hasBiConsumerFunction`: the id dispatches to a method taking the user and the scanner. */
  function HasBiConsumerFunction(functionId: Nullable<string>): (r: Outcome<bool>)
    ensures r.IsFailure() <==> functionId.Null?
    ensures r.Ok? ==> (r.value <==> functionId.get in BiConsumers)
  {
    ContainsKey(BiConsumers, functionId)
  }

  /** `getFunctionName`: the entry's title, or `null` for an unknown id. */
  function GetFunctionName(functionId: Nullable<string>): (r: Outcome<Nullable<string>>)
    ensures r.IsFailure() <==> functionId.Null?
    ensures r.Ok? ==> (r.value == Null <==> functionId.get !in FunctionNames)
    ensures r.Ok? && r.value.NonNull? ==> r.value.get == FunctionNames[functionId.get]
  {
    Get(FunctionNames, functionId)
  }

  /** `getRunnableById`: the no-argument method, or `null`. */
  function GetRunnableById(functionId: Nullable<string>): (r: Outcome<Nullable<Action>>)
    ensures r.IsFailure() <==> functionId.Null?
    ensures r.Ok? ==> (r.value == Null <==> functionId.get !in Runnables)
    ensures r.Ok? && r.value.NonNull? ==> r.value.get == Runnables[functionId.get]
  {
    Get(Runnables, functionId)
  }

  /** `getBiConsumerById`: the method taking the user and the scanner, or `null`. */
  function GetBiConsumerById(functionId: Nullable<string>): (r: Outcome<Nullable<Action>>)
    ensures r.IsFailure() <==> functionId.Null?
    ensures r.Ok? ==> (r.value == Null <==> functionId.get !in BiConsumers)
    ensures r.Ok? && r.value.NonNull? ==> r.value.get == BiConsumers[functionId.get]
  {
    Get(BiConsumers, functionId)
  }

  /**
   * `executeRunnableById`: a `null` id throws NullPointerException, an id
   * with no no-argument method IllegalArgumentException; otherwise the
   * method that is run.
   */
  function ExecuteRunnableById(functionId: Nullable<string>): (r: Outcome<Action>)
    ensures r == NullPtr <==> functionId.Null?
    ensures r.Ok? <==> functionId.NonNull? && functionId.get in Runnables
    ensures r.Ok? ==> r.value == Runnables[functionId.get]
    ensures r.IllegalArg? ==> r.cause == NoSuchFunction(functionId.get)
  {
    if functionId.Null? then NullPtr
    else
      var runnable := GetRunnableById(functionId).value;
      if runnable.Null? then IllegalArg(NoSuchFunction(functionId.get))
      else Ok(runnable.get)
  }

  /**
   * `executeBiConsumerById`: the id, the user and the scanner are checked
   * for `null` in that order; then an id with no such method throws
   * IllegalArgumentException; otherwise the method that receives the user
   * and the scanner.
   */
  function ExecuteBiConsumerById(functionId: Nullable<string>, user: User?, scanner: Scanner?): (r: Outcome<Action>)
    ensures r == NullPtr <==> functionId.Null? || user == null || scanner == null
    ensures r.Ok? <==> functionId.NonNull? && user != null && scanner != null && functionId.get in BiConsumers
    ensures r.Ok? ==> r.value == BiConsumers[functionId.get]
    ensures r.IllegalArg? ==> r.cause == NoSuchFunction(functionId.get)
  {
    if functionId.Null? then NullPtr
    else
      var _ :- MethodParameterValidator.ValidateUserAndScanner(user, scanner);
      var biConsumer := GetBiConsumerById(functionId).value;
      if biConsumer.Null? then IllegalArg(NoSuchFunction(functionId.get))
      else Ok(biConsumer.get)
  }

  /** The ids of the no-argument methods: sections 1 and 5, except the ideal-weight entry "5.1.1". */
  const RunnableIds: set<string> := {"1.1.1", "1.1.2", "1.1.3", "1.1.4", "1.1.5", "1.2.1", "1.2.2", "1.3.1", "5.1.2", "5.1.3", "5.1.4", "5.1.5", "5.1.6", "5.2.1", "5.2.2", "5.3.1"}

  /** The ids of the methods taking the user and the scanner: sections 2 to 4, and "5.1.1". */
  const BiConsumerIds: set<string> := {"2.1.1", "2.1.2", "2.1.3", "2.1.4", "2.2.1", "2.2.2", "2.3.1", "3.1.1", "3.1.2", "3.1.3", "3.1.4", "3.1.5", "3.2.1", "3.2.2", "3.3.1", "4.1.1", "4.2.1", "4.3.1", "5.1.1"}

  /** Helper: the key set of each table, as a set. */
  lemma TableKeys()
    ensures Runnables.Keys == RunnableIds
    ensures BiConsumers.Keys == BiConsumerIds
  {
  }

  /** Helper: the menu ids are the ids of the two tables. */
  lemma MenuKeys()
    ensures FunctionNames.Keys == RunnableIds + BiConsumerIds
  {
  }

  /** Helper: no id is in both tables. */
  lemma IdSetsAreDisjoint()
    ensures RunnableIds !! BiConsumerIds
  {
  }

  /**
   * The two dispatch tables split the menu: no id is in both, and together
   * they hold exactly the ids that have a title.
   */
  lemma DispatchTablesPartitionMenu()
    ensures Runnables.Keys !! BiConsumers.Keys
    ensures Runnables.Keys + BiConsumers.Keys == FunctionNames.Keys
    ensures |FunctionNames.Keys| == |Runnables.Keys| + |BiConsumers.Keys|
  {
    TableKeys();
    MenuKeys();
    IdSetsAreDisjoint();
  }

  /** Every valid id is carried out in exactly one way, and an invalid one in neither. */
  lemma ValidIdDispatchesOnce(functionId: string)
    ensures IsValidFunctionId(NonNull(functionId)).value <==>
      HasRunnableFunction(NonNull(functionId)).value || HasBiConsumerFunction(NonNull(functionId)).value
    ensures !(HasRunnableFunction(NonNull(functionId)).value && HasBiConsumerFunction(NonNull(functionId)).value)
  {
    DispatchTablesPartitionMenu();
  }
}
