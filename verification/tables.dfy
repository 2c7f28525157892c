/**
 * The twelve interval tables the analysis reports draw on, one per metric
 * enum: the intervals in declaration order, which is the order `values()`
 * hands them to the lookup.
 */
module MetricTables {
  import opened Outcomes
  import opened BodyMetric
  import opened IntervalAssessment
  import opened HealthMetricsProvider

  /** `Double.MAX_VALUE`, (2 - 2^-52) * 2^1023, written out exactly. */
  const DoubleMaxValue: real := 179769313486231570814527423731704356798070567525844996598917476803157260780028538760589558632766878171540458953514382464234321326889464182768467546703537516986049910576551282076245490090389328944075868508455133942304583236903222948165808559332123348274797826204144723168738177180919299881250404026184124858368.0

  // BMIMetrics.java
  const BMILow := HealthMetricIntervalAssessment(HealthMetric.BMI.MinValue(), 18.5,
    "体重较轻",
    "营养不良、代谢紊乱、免疫力下降",
    "增加营养摄入,补充优质蛋白质、维生素、矿物质;避免过度节食;定期监测体重和营养状况")
  const BMINormal := HealthMetricIntervalAssessment(18.5, 24.9,
    "正常体重",
    "健康风险较低",
    "保持健康生活方式: 定期运动,避免久坐,饮食均衡,定期体检")
  const BMIOverweight := HealthMetricIntervalAssessment(25.0, 29.9,
    "超重",
    "高血压、心血管疾病、糖尿病、脂肪肝风险增加",
    "关注热量摄入,减少精制碳水和饱和脂肪摄入;每周 150 分钟中等强度运动;监测体重变化")
  const BMIObesityLevelI := HealthMetricIntervalAssessment(30.0, 34.9,
    "肥胖I级(轻度肥胖症)",
    "胰岛素抵抗、非酒精性脂肪肝、代谢综合征、关节负担、睡眠呼吸暂停",
    "限制热量摄入(每日减少 500-750 大卡);结合饮食与运动,每周 5 天中等强度运动;必要时咨询医生")
  const BMIObesityLevelII := HealthMetricIntervalAssessment(35.0, 39.9,
    "肥胖II级(中度肥胖症)",
    "心血管疾病、II型糖尿病、关节问题、脂肪肝、心理压力",
    "专业医疗监督下的减重计划;考虑药物辅助治疗或手术干预;物理治疗缓解关节压力")
  const BMIObesityLevelIII := HealthMetricIntervalAssessment(40.0, 49.9,
    "肥胖III级(重度肥胖症)",
    "心血管疾病、慢性肾病、睡眠呼吸暂停、某些癌症",
    "多学科团队干预(医生、营养师、心理医生);优先考虑代谢手术")
  const BMIObesityLevelIV := HealthMetricIntervalAssessment(50.0, HealthMetric.BMI.MaxValue(),
    "肥胖IV级(极重度/超级肥胖)",
    "预期寿命缩短10-20年、严重心血管疾病、器官衰竭、极高死亡风险",
    "紧急医疗干预;代谢手术为一线治疗;终身健康监测和营养支持")
  const BMIMetrics: seq<HealthMetricIntervalAssessment> := [BMILow, BMINormal, BMIOverweight, BMIObesityLevelI, BMIObesityLevelII, BMIObesityLevelIII, BMIObesityLevelIV]

  // MaleWHRMetrics.java
  const MaleWHRExtremelyLow := HealthMetricIntervalAssessment(HealthMetric.WHR.MinValue(), 0.80,
    "腰臀比过低",
    "可能肌肉分布不均",
    "加强臀部训练( 如硬拉 ),平衡肌肉发展")
  const MaleWHRExcellent := HealthMetricIntervalAssessment(0.80, 0.85,
    "腰臀比优秀",
    "脂肪分布理想",
    "维持现有训练计划,保持饮食均衡")
  const MaleWHRGood := HealthMetricIntervalAssessment(0.85, 0.90,
    "腰臀比良好",
    "健康范围",
    "继续当前生活方式,定期监测")
  const MaleWHRHigh := HealthMetricIntervalAssessment(0.90, 0.95,
    "腰臀比偏高",
    "腹部脂肪堆积",
    "减少酒精摄入,增加有氧运动( 如游泳 )")
  const MaleWHRVeryHigh := HealthMetricIntervalAssessment(0.95, 1.00,
    "高危",
    "内脏脂肪过多",
    "采用间歇性禁食( 如 16:8 饮食法 ),适量 HIIT 训练")
  const MaleWHRExtremelyHigh := HealthMetricIntervalAssessment(1.00, HealthMetric.WHR.MaxValue(),
    "病态",
    "严重中心性肥胖",
    "立即就医,考虑药物或手术减脂")
  const MaleWHRMetrics: seq<HealthMetricIntervalAssessment> := [MaleWHRExtremelyLow, MaleWHRExcellent, MaleWHRGood, MaleWHRHigh, MaleWHRVeryHigh, MaleWHRExtremelyHigh]

  // FemaleWHRMetrics.java
  const FemaleWHRExtremelyLow := HealthMetricIntervalAssessment(HealthMetric.WHR.MinValue(), 0.70,
    "腰臀比过低",
    "可能肌肉分布不均",
    "加强臀部训练( 如深蹲 ),平衡肌肉发展")
  const FemaleWHRExcellent := HealthMetricIntervalAssessment(0.70, 0.75,
    "腰臀比优秀",
    "沙漏型身材,雌激素水平理想",
    "维持现有训练计划,保证钙摄入")
  const FemaleWHRGood := HealthMetricIntervalAssessment(0.75, 0.80,
    "腰臀比良好",
    "健康范围",
    "继续当前生活方式,定期监测")
  const FemaleWHRHigh := HealthMetricIntervalAssessment(0.80, 0.85,
    "腰臀比偏高",
    "腹部脂肪堆积",
    "减少精制碳水摄入,增加核心训练")
  const FemaleWHRVeryHigh := HealthMetricIntervalAssessment(0.85, 0.90,
    "高危",
    "内脏脂肪过多",
    "采用高蛋白饮食( 1.6g/kg 体重 ),每周 5 次运动")
  const FemaleWHRExtremelyHigh := HealthMetricIntervalAssessment(0.90, HealthMetric.WHR.MaxValue(),
    "病态",
    "严重中心性肥胖",
    "立即就医,考虑药物或手术减脂")
  const FemaleWHRMetrics: seq<HealthMetricIntervalAssessment> := [FemaleWHRExtremelyLow, FemaleWHRExcellent, FemaleWHRGood, FemaleWHRHigh, FemaleWHRVeryHigh, FemaleWHRExtremelyHigh]

  // MaleBFRMetrics.java
  const MaleBFRExtremelyLow := HealthMetricIntervalAssessment(HealthMetric.BFR.MinValue(), 5.0,
    "体脂率极低(病态)",
    "激素失衡、器官保护不足",
    "立即就医,增加健康脂肪摄入,停止减脂")
  const MaleBFRAthleteLevel := HealthMetricIntervalAssessment(5.0, 10.0,
    "体脂率处于运动员水平",
    "适合专业运动员",
    "维持高强度训练,保证蛋白质摄入(2.0g/kg体重)")
  const MaleBFRGood := HealthMetricIntervalAssessment(10.0, 15.0,
    "体脂率良好",
    "肌肉线条明显",
    "保持当前训练计划,均衡饮食(碳水:蛋白质:脂肪=5:3:2)")
  const MaleBFRNormal := HealthMetricIntervalAssessment(15.0, 20.0,
    "体脂率正常",
    "健康体脂",
    "每周3次抗阻训练+2次有氧,控制精制糖摄入")
  const MaleBFRHigh := HealthMetricIntervalAssessment(20.0, 25.0,
    "体脂率偏高",
    "腹部脂肪堆积",
    "减少糖类、油脂摄入,增加HIIT训练(每周3次)")
  const MaleBFRVeryHigh := HealthMetricIntervalAssessment(25.0, 30.0,
    "肥胖",
    "代谢风险增加",
    "断绝不健康脂肪、糖类、油糖混合物摄入,每日热量缺口200-400大卡,配合力量训练")
  const MaleBFRExtremelyHigh := HealthMetricIntervalAssessment(30.0, HealthMetric.BFR.MaxValue(),
    "病态肥胖",
    "糖尿病、心血管疾病高风险",
    "立即就医,考虑药物或手术干预")
  const MaleBFRMetrics: seq<HealthMetricIntervalAssessment> := [MaleBFRExtremelyLow, MaleBFRAthleteLevel, MaleBFRGood, MaleBFRNormal, MaleBFRHigh, MaleBFRVeryHigh, MaleBFRExtremelyHigh]

  // FemaleBFRMetrics.java
  const FemaleBFRExtremelyLow := HealthMetricIntervalAssessment(HealthMetric.BFR.MinValue(), 10.0,
    "体脂率极低(病态)",
    "月经不调、生育能力下降",
    "立即就医,增加健康脂肪摄入,停止减脂")
  const FemaleBFRAthleteLevel := HealthMetricIntervalAssessment(10.0, 18.0,
    "体脂率处于运动员水平",
    "适合专业运动员",
    "维持高强度训练,保证蛋白质摄入(1.8g/kg体重)")
  const FemaleBFRGood := HealthMetricIntervalAssessment(18.0, 22.0,
    "体脂率良好",
    "肌肉线条明显",
    "保持当前训练计划,注意铁元素补充")
  const FemaleBFRNormal := HealthMetricIntervalAssessment(22.0, 28.0,
    "体脂率正常",
    "健康体脂",
    "每周2次臀部训练+3次有氧,保证膳食纤维摄入")
  const FemaleBFRHigh := HealthMetricIntervalAssessment(28.0, 33.0,
    "体脂率偏高",
    "腹部脂肪堆积",
    "减少精制碳水摄入,增加核心训练(如平板支撑)")
  const FemaleBFRVeryHigh := HealthMetricIntervalAssessment(33.0, 38.0,
    "肥胖",
    "代谢风险增加",
    "采用高蛋白饮食(1.6g/kg体重),每日快走60分钟")
  const FemaleBFRExtremelyHigh := HealthMetricIntervalAssessment(38.0, HealthMetric.BFR.MaxValue(),
    "病态肥胖",
    "糖尿病、心血管疾病高风险",
    "立即就医,考虑药物或手术干预")
  const FemaleBFRMetrics: seq<HealthMetricIntervalAssessment> := [FemaleBFRExtremelyLow, FemaleBFRAthleteLevel, FemaleBFRGood, FemaleBFRNormal, FemaleBFRHigh, FemaleBFRVeryHigh, FemaleBFRExtremelyHigh]

  // MaleBRIMetrics.java
  const MaleBRIExtremelyLow := HealthMetricIntervalAssessment(HealthMetric.BRI.MinValue(), 2.0,
    "极瘦",
    "肌肉量严重不足,营养不良风险",
    "立即就医检查,增加高蛋白饮食( 2.0g/kg 体重 ),从轻度抗阻训练开始")
  const MaleBRILow := HealthMetricIntervalAssessment(2.0, 3.0,
    "偏瘦",
    "肌肉量不足,基础代谢率低",
    "增加热量摄入( 每日额外 100-300 大卡 ),进行全身抗阻训练( 每周 3 次 )")
  const MaleBRIIdeal := HealthMetricIntervalAssessment(3.0, 4.5,
    "理想",
    "肌肉与脂肪比例均衡,健康体型",
    "维持均衡饮食,定期力量训练保持肌肉量")
  const MaleBRISlightlyObese := HealthMetricIntervalAssessment(4.5, 6.0,
    "轻度中心性肥胖",
    "腹部脂肪开始堆积,代谢风险上升",
    "减少精制碳水摄入,增加有氧运动( 每周 4 次,每次 40 分钟 )")
  const MaleBRIMediumObese := HealthMetricIntervalAssessment(6.0, 7.5,
    "中度中心性肥胖",
    "内脏脂肪过多,胰岛素抵抗风险",
    "采用低碳水化合物饮食,每日热量缺口 200-400 大卡,增加 HIIT 训练")
  const MaleBRIVeryObese := HealthMetricIntervalAssessment(7.5, 9.0,
    "重度中心性肥胖",
    "糖尿病、心血管疾病高风险",
    "立即就医检查血糖、血脂,严格控制饮食( 每日 1500-1800 大卡 ),每日运动60分钟")
  const MaleBRIExtremelyObese := HealthMetricIntervalAssessment(9.0, HealthMetric.BRI.MaxValue(),
    "病态肥胖",
    "多器官功能受损风险",
    "需医疗团队介入,考虑代谢手术,配合极低热量饮食( 800-1200 大卡/天 )")
  const MaleBRIMetrics: seq<HealthMetricIntervalAssessment> := [MaleBRIExtremelyLow, MaleBRILow, MaleBRIIdeal, MaleBRISlightlyObese, MaleBRIMediumObese, MaleBRIVeryObese, MaleBRIExtremelyObese]

  // FemaleBRIMetrics.java
  const FemaleBRIExtremelyLow := HealthMetricIntervalAssessment(HealthMetric.BRI.MinValue(), 1.5,
    "极瘦",
    "雌激素水平可能过低,月经不调风险",
    "立即就医检查激素水平,增加健康脂肪摄入( 每日 30-40g ),停止减脂")
  const FemaleBRILow := HealthMetricIntervalAssessment(1.5, 2.5,
    "偏瘦",
    "肌肉量不足,骨密度下降风险",
    "增加蛋白质摄入( 1.2-1.5g/kg 体重 ),进行力量训练( 如哑铃、深蹲 )")
  const FemaleBRIIdeal := HealthMetricIntervalAssessment(2.5, 4.0,
    "理想",
    "沙漏型身材,雌激素水平正常",
    "维持现有训练,保证钙和 维生素D 摄入,定期监测骨密度")
  const FemaleBRISlightlyObese := HealthMetricIntervalAssessment(4.0, 5.5,
    "轻度中心性肥胖",
    "腹部脂肪开始堆积,代谢风险上升",
    "减少含糖饮料和零食,增加核心训练( 如平板支撑、卷腹 )")
  const FemaleBRIMediumObese := HealthMetricIntervalAssessment(5.5, 7.0,
    "中度中心性肥胖",
    "内脏脂肪过多,多囊卵巢综合征风险",
    "采用 低GI 饮食,增加有氧运动( 如快走、骑自行车 ),补充肌醇")
  const FemaleBRIVeryObese := HealthMetricIntervalAssessment(7.0, 8.5,
    "重度中心性肥胖",
    "糖尿病、心血管疾病高风险",
    "立即就医检查血糖、胰岛素水平,严格控制碳水摄入,每日运动 60 分钟")
  const FemaleBRIExtremelyObese := HealthMetricIntervalAssessment(8.5, DoubleMaxValue,
    "病态肥胖",
    "多器官功能受损风险",
    "需医疗团队介入,考虑药物治疗,配合低碳水高蛋白饮食( 蛋白质占比 30% )")
  const FemaleBRIMetrics: seq<HealthMetricIntervalAssessment> := [FemaleBRIExtremelyLow, FemaleBRILow, FemaleBRIIdeal, FemaleBRISlightlyObese, FemaleBRIMediumObese, FemaleBRIVeryObese, FemaleBRIExtremelyObese]

  // BMRMetrics.java
  const BMRVeryLow := HealthMetricIntervalAssessment(HealthMetric.BMR.MinValue(), 1000.0,
    "基础代谢极低",
    "甲状腺功能减退、营养不良",
    "就医检查甲状腺功能,每日热量摄入 ≥ 1200 大卡")
  const BMRLow := HealthMetricIntervalAssessment(1000.0, 1300.0,
    "基础代谢偏低",
    "久坐生活方式、肌肉量少",
    "增加日常活动量( 如步行 ),每日力量训练 20 分钟")
  const BMRNormalFemale := HealthMetricIntervalAssessment(1300.0, 1600.0,
    "基础代谢正常( 女性 )",
    "健康代谢水平",
    "维持现有饮食,每周 3 次有氧运动")
  const BMRNormalMale := HealthMetricIntervalAssessment(1600.0, 1900.0,
    "基础代谢正常( 男性 )",
    "健康代谢水平",
    "维持现有饮食,每周 3 次抗阻训练")
  const BMRHigh := HealthMetricIntervalAssessment(1900.0, 2200.0,
    "基础代谢偏高",
    "肌肉量高或甲亢倾向",
    "若肌肉发达则继续保持;若消瘦则检查甲状腺功能")
  const BMRVeryHigh := HealthMetricIntervalAssessment(2200.0, 2500.0,
    "基础代谢很高",
    "高强度训练者或甲亢",
    "保证每日热量摄入( 每公斤体重 30-35kcal ),定期休息")
  const BMRExtremelyHigh := HealthMetricIntervalAssessment(2500.0, HealthMetric.BMR.MaxValue(),
    "基础代谢异常高",
    "甲亢或其他内分泌疾病",
    "立即就医,排查甲亢等疾病")
  const BMRMetrics: seq<HealthMetricIntervalAssessment> := [BMRVeryLow, BMRLow, BMRNormalFemale, BMRNormalMale, BMRHigh, BMRVeryHigh, BMRExtremelyHigh]

  // TDEEMetrics.java
  const TDEEExtremelyLow := HealthMetricIntervalAssessment(HealthMetric.TDEE.MinValue(), 1200.0,
    "能量摄入不足",
    "代谢减缓、肌肉流失、月经不调( 女性 )、免疫力下降",
    "逐步增加热量摄入至基础代谢水平;每日摄入至少 1.2g/kg 体重蛋白质")
  const TDEEVeryLow := HealthMetricIntervalAssessment(1200.0, 1600.0,
    "极低活动水平",
    "维持基本生理功能,难以支持日常活动",
    "增加轻度活动( 如散步 );每日热量摄入不低于 BMR × 1.1")
  const TDEELow := HealthMetricIntervalAssessment(1600.0, 2000.0,
    "低活动水平",
    "适合轻度办公室工作者,可能有体重增加风险",
    "每周 3 次 30 分钟中等强度运动;保持碳水 : 蛋白质 : 脂肪 = 5:3:2 比例")
  const TDEEMedium := HealthMetricIntervalAssessment(2000.0, 2400.0,
    "中等活动水平",
    "适合大多数健康成年人,维持当前体重",
    "每日摄入热量 = BMR × 1.55;保证足够水分和电解质")
  const TDEEHigh := HealthMetricIntervalAssessment(2400.0, 3000.0,
    "高活动水平",
    "适合运动员或体力劳动者,需注意营养恢复",
    "运动后 30 分钟内补充碳水和蛋白质( 比例 4:1 );每日钠摄入不超过 2300mg")
  const TDEEVeryHigh := HealthMetricIntervalAssessment(3000.0, 4000.0,
    "超高活动水平",
    "需严格规划营养摄入,存在过度训练风险",
    "分阶段碳水摄入策略;补充支链氨基酸( BCAA );定期监测血睾酮水平")
  const TDEEExtremelyHigh := HealthMetricIntervalAssessment(4000.0, HealthMetric.TDEE.MaxValue(),
    "极高活动水平",
    "可能需要专业营养师指导,需警惕心脏负荷",
    "个体化营养方案;定期心脏功能评估;保证 8 小时睡眠")
  const TDEEMetrics: seq<HealthMetricIntervalAssessment> := [TDEEExtremelyLow, TDEEVeryLow, TDEELow, TDEEMedium, TDEEHigh, TDEEVeryHigh, TDEEExtremelyHigh]

  // BSAMetrics.java
  const BSAVeryLow := HealthMetricIntervalAssessment(HealthMetric.BSA.MinValue(), 1.4,
    "体表面积过低",
    "发育不良或严重消瘦",
    "儿科/内分泌科就诊,增加高热量密度食物摄入")
  const BSALow := HealthMetricIntervalAssessment(1.4, 1.6,
    "体表面积偏低",
    "偏瘦体型",
    "增加蛋白质摄入( 1.2g/kg 体重 ),适量力量训练")
  const BSANormal := HealthMetricIntervalAssessment(1.6, 1.9,
    "体表面积正常",
    "体表面积适中",
    "无特殊风险,维持健康生活方式")
  const BSAHigh := HealthMetricIntervalAssessment(1.9, 2.2,
    "体表面积偏高",
    "偏胖体型或肌肉发达",
    "若肥胖 : 控制热量摄入;若肌肉发达 : 维持当前训练")
  const BSAVeryHigh := HealthMetricIntervalAssessment(2.2, 2.5,
    "体表面积过高",
    "肥胖或巨人症",
    "排查内分泌疾病,制定减重计划( 每日热量缺口 200-400 大卡 )")
  const BSAExtremelyHigh := HealthMetricIntervalAssessment(2.5, HealthMetric.BSA.MaxValue(),
    "体表面积病态过高",
    "严重肥胖或肢端肥大症",
    "立即就医,考虑药物或手术干预")
  const BSAMetrics: seq<HealthMetricIntervalAssessment> := [BSAVeryLow, BSALow, BSANormal, BSAHigh, BSAVeryHigh, BSAExtremelyHigh]

  // MaleWaistCircumferenceMetrics.java
  const MaleWaistExtremelyLow := HealthMetricIntervalAssessment(0.0, 75.0,
    "腰部过细",
    "可能肌肉量不足",
    "增加蛋白质摄入,进行抗阻训练")
  const MaleWaistHealthy := HealthMetricIntervalAssessment(75.0, 85.0,
    "健康",
    "低代谢风险",
    "维持现有生活方式,避免久坐")
  const MaleWaistSlightlyHigh := HealthMetricIntervalAssessment(85.0, 90.0,
    "腰围轻度超标",
    "代谢风险开始增加",
    "减少精制碳水摄入,每日步行 10000 步")
  const MaleWaistHigh := HealthMetricIntervalAssessment(90.0, 100.0,
    "腰围超标",
    "胰岛素抵抗风险",
    "采用地中海饮食,每周 5 次 30 分钟有氧运动")
  const MaleWaistVeryHigh := HealthMetricIntervalAssessment(100.0, 110.0,
    "高危",
    "糖尿病、心血管疾病高风险",
    "立即控制饮食( 每日热量 1500-1800 大卡 ),增加高强度运动")
  const MaleWaistExtremeHigh := HealthMetricIntervalAssessment(110.0, DoubleMaxValue,
    "病态",
    "严重代谢综合征",
    "立即就医,药物干预配合饮食运动")
  const MaleWaistMetrics: seq<HealthMetricIntervalAssessment> := [MaleWaistExtremelyLow, MaleWaistHealthy, MaleWaistSlightlyHigh, MaleWaistHigh, MaleWaistVeryHigh, MaleWaistExtremeHigh]

  // FemaleWaistCircumferenceMetrics.java
  const FemaleWaistExtremelyLow := HealthMetricIntervalAssessment(0.0, 65.0,
    "腰部过细",
    "可能肌肉量不足或雌激素偏低",
    "增加蛋白质摄入,监测月经周期")
  const FemaleWaistHealthy := HealthMetricIntervalAssessment(65.0, 75.0,
    "健康",
    "低代谢风险",
    "维持现有生活方式,保持核心训练")
  const FemaleWaistSlightlyHigh := HealthMetricIntervalAssessment(75.0, 80.0,
    "腰围轻度超标",
    "代谢风险开始增加",
    "减少含糖饮料摄入,每周 3 次瑜伽")
  const FemaleWaistHigh := HealthMetricIntervalAssessment(80.0, 88.0,
    "腰围超标",
    "胰岛素抵抗风险",
    "采用 低GI 饮食,每周 4 次 30 分钟有氧")
  const FemaleWaistVeryHigh := HealthMetricIntervalAssessment(88.0, 95.0,
    "高危",
    "糖尿病、心血管疾病高风险",
    "立即控制饮食( 每日热量 1200-1500 大卡 ),增加力量训练")
  const FemaleWaistExtremeHigh := HealthMetricIntervalAssessment(95.0, DoubleMaxValue,
    "病态",
    "严重代谢综合征",
    "立即就医,药物干预配合饮食运动")
  const FemaleWaistMetrics: seq<HealthMetricIntervalAssessment> := [FemaleWaistExtremelyLow, FemaleWaistHealthy, FemaleWaistSlightlyHigh, FemaleWaistHigh, FemaleWaistVeryHigh, FemaleWaistExtremeHigh]

  /**
   * Male WHR: the intervals run without a break from WHR's minimum 0.5 to its
   * maximum 1.5, so exactly the valid ratios are classified.
   */
  lemma MaleWHRCoversValidRange(value: real)
    ensures Contiguous(MaleWHRMetrics)
    ensures MaleWHRMetrics[0].lowerBound == WHR.MinValue() && MaleWHRMetrics[5].upperBound == WHR.MaxValue()
    ensures Found(MaleWHRMetrics, value).Some? <==> WHR.IsValid(value)
  {
    if WHR.IsValid(value) {
      ContiguousTableCovers(MaleWHRMetrics, value);
    }
  }

  /** Male WHR 0.90 ends GOOD and starts HIGH; the earlier GOOD wins. */
  lemma MaleWHRBoundaryGoesToGood()
    ensures Found(MaleWHRMetrics, 0.90) == Some(MaleWHRGood)
  {
    FoundAt(MaleWHRMetrics, 0.90, 2);
  }

  /**
   * BMI: the table starts at BMI's minimum and ends at its maximum, but the
   * intervals leave gaps of 0.1 between 24.9 and 25.0, 29.9 and 30.0,
   * 34.9 and 35.0, 39.9 and 40.0, and 49.9 and 50.0; a value in a gap is
   * classified by no entry, so the lookup throws for it.
   */
  lemma BMIClassifiesAllButGaps(value: real)
    ensures BMIMetrics[0].lowerBound == BMI.MinValue() && BMIMetrics[6].upperBound == BMI.MaxValue()
    ensures Found(BMIMetrics, value).Some? <==>
      10.0 <= value <= 24.9 || 25.0 <= value <= 29.9 || 30.0 <= value <= 34.9 ||
      35.0 <= value <= 39.9 || 40.0 <= value <= 49.9 || 50.0 <= value <= 180.0
    ensures Found(BMIMetrics, 24.95) == None && Found(BMIMetrics, 49.95) == None
  {
    if Found(BMIMetrics, value).Some? {
      var i := FirstMatch(BMIMetrics, value).value;
      assert BMIMetrics[i].IsInRange(value);
      assert i == 0 || i == 1 || i == 2 || i == 3 || i == 4 || i == 5 || i == 6;
    }
    if 10.0 <= value <= 18.5 { ContainedIsFound(BMIMetrics, value, 0); }
    if 18.5 <= value <= 24.9 { ContainedIsFound(BMIMetrics, value, 1); }
    if 25.0 <= value <= 29.9 { ContainedIsFound(BMIMetrics, value, 2); }
    if 30.0 <= value <= 34.9 { ContainedIsFound(BMIMetrics, value, 3); }
    if 35.0 <= value <= 39.9 { ContainedIsFound(BMIMetrics, value, 4); }
    if 40.0 <= value <= 49.9 { ContainedIsFound(BMIMetrics, value, 5); }
    if 50.0 <= value <= 180.0 { ContainedIsFound(BMIMetrics, value, 6); }
  }

  /**
   * BMI boundaries: 18.5 closes LOW and opens NORMAL, and LOW wins; 70 kg at
   * 175 cm (about 22.86) is NORMAL; 30.0 is OBESITY_LEVEL_I.
   */
  lemma BMIBoundaries()
    ensures Found(BMIMetrics, 18.5) == Some(BMILow)
    ensures Found(BMIMetrics, 22.857) == Some(BMINormal)
    ensures Found(BMIMetrics, 70.0 / (1.75 * 1.75)) == Some(BMINormal)
    ensures Found(BMIMetrics, 30.0) == Some(BMIObesityLevelI)
  {
    FoundAt(BMIMetrics, 18.5, 0);
    FoundAt(BMIMetrics, 22.857, 1);
    FoundAt(BMIMetrics, 70.0 / (1.75 * 1.75), 1);
    FoundAt(BMIMetrics, 30.0, 3);
  }

  /** Female WHR: contiguous from 0.5 to 1.5, so exactly the valid ratios are classified. */
  lemma FemaleWHRCoversValidRange(value: real)
    ensures Contiguous(FemaleWHRMetrics)
    ensures FemaleWHRMetrics[0].lowerBound == WHR.MinValue() && FemaleWHRMetrics[5].upperBound == WHR.MaxValue()
    ensures Found(FemaleWHRMetrics, value).Some? <==> WHR.IsValid(value)
  {
    if WHR.IsValid(value) {
      ContiguousTableCovers(FemaleWHRMetrics, value);
    }
  }

  /** Female WHR 0.85 ends HIGH and starts VERY_HIGH; HIGH wins. */
  lemma FemaleWHRBoundaryGoesToHigh()
    ensures Found(FemaleWHRMetrics, 0.85) == Some(FemaleWHRHigh)
  {
    FoundAt(FemaleWHRMetrics, 0.85, 3);
  }

  /** Male BFR: contiguous from 3 to 60, so exactly the valid percentages are classified. */
  lemma MaleBFRCoversValidRange(value: real)
    ensures Contiguous(MaleBFRMetrics)
    ensures MaleBFRMetrics[0].lowerBound == BFR.MinValue() && MaleBFRMetrics[6].upperBound == BFR.MaxValue()
    ensures Found(MaleBFRMetrics, value).Some? <==> BFR.IsValid(value)
  {
    if BFR.IsValid(value) {
      ContiguousTableCovers(MaleBFRMetrics, value);
    }
  }

  /** Male BFR 10.0 is ATHLETE_LEVEL; 2.9 and 60.1 are not classified. */
  lemma MaleBFRBoundaries()
    ensures Found(MaleBFRMetrics, 10.0) == Some(MaleBFRAthleteLevel)
    ensures Found(MaleBFRMetrics, 2.9) == None && Found(MaleBFRMetrics, 60.1) == None
  {
    FoundAt(MaleBFRMetrics, 10.0, 1);
  }

  /** Female BFR: contiguous from 3 to 60, so exactly the valid percentages are classified. */
  lemma FemaleBFRCoversValidRange(value: real)
    ensures Contiguous(FemaleBFRMetrics)
    ensures FemaleBFRMetrics[0].lowerBound == BFR.MinValue() && FemaleBFRMetrics[6].upperBound == BFR.MaxValue()
    ensures Found(FemaleBFRMetrics, value).Some? <==> BFR.IsValid(value)
  {
    if BFR.IsValid(value) {
      ContiguousTableCovers(FemaleBFRMetrics, value);
    }
  }

  /** Female BFR 18.0 is ATHLETE_LEVEL. */
  lemma FemaleBFRBoundaryGoesToAthlete()
    ensures Found(FemaleBFRMetrics, 18.0) == Some(FemaleBFRAthleteLevel)
  {
    FoundAt(FemaleBFRMetrics, 18.0, 1);
  }

  /** Male BRI: contiguous from 0 to 100; negative values and values above 100 are not classified. */
  lemma MaleBRICoversValidRange(value: real)
    ensures Contiguous(MaleBRIMetrics)
    ensures MaleBRIMetrics[0].lowerBound == BRI.MinValue() && MaleBRIMetrics[6].upperBound == BRI.MaxValue()
    ensures Found(MaleBRIMetrics, value).Some? <==> BRI.IsValid(value)
  {
    if BRI.IsValid(value) {
      ContiguousTableCovers(MaleBRIMetrics, value);
    }
  }

  /** Male BRI 4.5 is IDEAL. */
  lemma MaleBRIBoundaryGoesToIdeal()
    ensures Found(MaleBRIMetrics, 4.5) == Some(MaleBRIIdeal)
  {
    FoundAt(MaleBRIMetrics, 4.5, 2);
  }

  /**
   * Female BRI: contiguous from 0, but the last interval ends at
   * `Double.MAX_VALUE` rather than BRI's maximum 100, so every finite
   * non-negative value is classified.
   */
  lemma FemaleBRICoversFromZero(value: real)
    ensures Contiguous(FemaleBRIMetrics)
    ensures FemaleBRIMetrics[0].lowerBound == BRI.MinValue() && FemaleBRIMetrics[6].upperBound == DoubleMaxValue
    ensures Found(FemaleBRIMetrics, value).Some? <==> 0.0 <= value <= DoubleMaxValue
  {
    if 0.0 <= value <= DoubleMaxValue {
      ContiguousTableCovers(FemaleBRIMetrics, value);
    }
  }

  /** Female BRI 2.5 is LOW; 150 is EXTREMELY_OBESE for a woman but not classified for a man. */
  lemma BRITablesDisagreeAbove100()
    ensures Found(FemaleBRIMetrics, 2.5) == Some(FemaleBRILow)
    ensures Found(FemaleBRIMetrics, 150.0) == Some(FemaleBRIExtremelyObese)
    ensures Found(MaleBRIMetrics, 150.0) == None
  {
    FoundAt(FemaleBRIMetrics, 2.5, 1);
    FoundAt(FemaleBRIMetrics, 150.0, 6);
  }

  /** BMR: contiguous from 500 to 10000, so exactly the valid values are classified. */
  lemma BMRCoversValidRange(value: real)
    ensures Contiguous(BMRMetrics)
    ensures BMRMetrics[0].lowerBound == BMR.MinValue() && BMRMetrics[6].upperBound == BMR.MaxValue()
    ensures Found(BMRMetrics, value).Some? <==> BMR.IsValid(value)
  {
    if BMR.IsValid(value) {
      ContiguousTableCovers(BMRMetrics, value);
    }
  }

  /** BMR 1600 is NORMAL_FEMALE, not NORMAL_MALE; 499 and 10001 are not classified. */
  lemma BMRBoundaries()
    ensures Found(BMRMetrics, 1600.0) == Some(BMRNormalFemale)
    ensures Found(BMRMetrics, 499.0) == None && Found(BMRMetrics, 10001.0) == None
  {
    FoundAt(BMRMetrics, 1600.0, 2);
  }

  /** TDEE: contiguous from 800 to 15000, so exactly the valid values are classified. */
  lemma TDEECoversValidRange(value: real)
    ensures Contiguous(TDEEMetrics)
    ensures TDEEMetrics[0].lowerBound == TDEE.MinValue() && TDEEMetrics[6].upperBound == TDEE.MaxValue()
    ensures Found(TDEEMetrics, value).Some? <==> TDEE.IsValid(value)
  {
    if TDEE.IsValid(value) {
      ContiguousTableCovers(TDEEMetrics, value);
    }
  }

  /** TDEE 2400 is MEDIUM. */
  lemma TDEEBoundaryGoesToMedium()
    ensures Found(TDEEMetrics, 2400.0) == Some(TDEEMedium)
  {
    FoundAt(TDEEMetrics, 2400.0, 3);
  }

  /** BSA: contiguous from 0.2 to 3.0, so exactly the valid areas are classified. */
  lemma BSACoversValidRange(value: real)
    ensures Contiguous(BSAMetrics)
    ensures BSAMetrics[0].lowerBound == BSA.MinValue() && BSAMetrics[5].upperBound == BSA.MaxValue()
    ensures Found(BSAMetrics, value).Some? <==> BSA.IsValid(value)
  {
    if BSA.IsValid(value) {
      ContiguousTableCovers(BSAMetrics, value);
    }
  }

  /** BSA 1.9 is NORMAL. */
  lemma BSABoundaryGoesToNormal()
    ensures Found(BSAMetrics, 1.9) == Some(BSANormal)
  {
    FoundAt(BSAMetrics, 1.9, 2);
  }

  /**
   * Male waist: contiguous from 0 up to `Double.MAX_VALUE`, wider than the
   * waist parameter's [40, 302], so every validated waist is classified.
   */
  lemma MaleWaistCoversFromZero(value: real)
    ensures Contiguous(MaleWaistMetrics)
    ensures MaleWaistMetrics[0].lowerBound == 0.0 && MaleWaistMetrics[5].upperBound == DoubleMaxValue
    ensures Found(MaleWaistMetrics, value).Some? <==> 0.0 <= value <= DoubleMaxValue
    ensures WAIST_CIRCUMFERENCE.IsValid(value) ==> Found(MaleWaistMetrics, value).Some?
  {
    if 0.0 <= value <= DoubleMaxValue {
      ContiguousTableCovers(MaleWaistMetrics, value);
    }
  }

  /** Male waist 85 is HEALTHY and 110 is VERY_HIGH. */
  lemma MaleWaistBoundaries()
    ensures Found(MaleWaistMetrics, 85.0) == Some(MaleWaistHealthy)
    ensures Found(MaleWaistMetrics, 110.0) == Some(MaleWaistVeryHigh)
  {
    FoundAt(MaleWaistMetrics, 85.0, 1);
    FoundAt(MaleWaistMetrics, 110.0, 4);
  }

  /** Female waist: contiguous from 0 up to `Double.MAX_VALUE`, so every validated waist is classified. */
  lemma FemaleWaistCoversFromZero(value: real)
    ensures Contiguous(FemaleWaistMetrics)
    ensures FemaleWaistMetrics[0].lowerBound == 0.0 && FemaleWaistMetrics[5].upperBound == DoubleMaxValue
    ensures Found(FemaleWaistMetrics, value).Some? <==> 0.0 <= value <= DoubleMaxValue
    ensures WAIST_CIRCUMFERENCE.IsValid(value) ==> Found(FemaleWaistMetrics, value).Some?
  {
    if 0.0 <= value <= DoubleMaxValue {
      ContiguousTableCovers(FemaleWaistMetrics, value);
    }
  }

  /** Female waist 80 is SLIGHTLY_HIGH and 88 is HIGH. */
  lemma FemaleWaistBoundaries()
    ensures Found(FemaleWaistMetrics, 80.0) == Some(FemaleWaistSlightlyHigh)
    ensures Found(FemaleWaistMetrics, 88.0) == Some(FemaleWaistHigh)
  {
    FoundAt(FemaleWaistMetrics, 80.0, 2);
    FoundAt(FemaleWaistMetrics, 88.0, 3);
  }
}
