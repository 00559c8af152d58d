/** The built-in food catalogue and the default profile (constants.ts). */
module Constants {
  import opened Types

  const InitialFoodDb: seq<FoodItem> := [
    FoodItem("1", "鸡胸肉", "🍗", 165.0, 31.0, 3.6, 0.0),
    FoodItem("2", "鸡蛋 (1个)", "🥚", 78.0, 6.3, 5.3, 0.6),
    FoodItem("5", "三文鱼", "🐟", 208.0, 20.0, 13.0, 0.0),
    FoodItem("8", "瘦牛肉", "🥩", 250.0, 26.0, 15.0, 0.0),
    FoodItem("9", "鲜虾", "🦐", 99.0, 20.0, 1.1, 0.2),
    FoodItem("10", "豆腐", "🥣", 81.0, 8.0, 4.8, 1.9),
    FoodItem("7", "大米饭", "🍚", 130.0, 2.7, 0.3, 28.0),
    FoodItem("4", "全麦面包", "🍞", 247.0, 13.0, 3.4, 41.0),
    FoodItem("11", "荞麦面", "🍜", 340.0, 13.0, 2.5, 70.0),
    FoodItem("12", "红薯", "🍠", 86.0, 1.6, 0.1, 20.0),
    FoodItem("13", "燕麦片", "🥣", 389.0, 16.9, 6.9, 66.0),
    FoodItem("14", "意大利面", "🍝", 158.0, 5.8, 0.9, 31.0),
    FoodItem("3", "西兰花", "🥦", 34.0, 2.8, 0.4, 7.0),
    FoodItem("15", "菠菜", "🥗", 23.0, 2.9, 0.4, 3.6),
    FoodItem("16", "胡萝卜", "🥕", 41.0, 0.9, 0.2, 10.0),
    FoodItem("17", "西红柿", "🍅", 18.0, 0.9, 0.2, 3.9),
    FoodItem("18", "生菜沙拉", "🥗", 15.0, 1.4, 0.2, 2.9),
    FoodItem("6", "牛油果", "🥑", 160.0, 2.0, 15.0, 9.0),
    FoodItem("19", "苹果", "🍎", 52.0, 0.3, 0.2, 14.0),
    FoodItem("20", "香蕉", "🍌", 89.0, 1.1, 0.3, 23.0),
    FoodItem("21", "混合坚果", "🥜", 607.0, 20.0, 54.0, 21.0),
    FoodItem("22", "蓝莓", "🫐", 57.0, 0.7, 0.3, 14.0),
    FoodItem("23", "黑咖啡", "☕", 2.0, 0.1, 0.0, 0.0),
    FoodItem("24", "绿茶", "🍵", 1.0, 0.0, 0.0, 0.0),
    FoodItem("25", "无糖豆浆", "🥛", 31.0, 3.3, 1.6, 1.2)
  ]

  const DefaultProfile := UserProfile(Male, 25, 70.0, 175.0, ModeratelyActive)

  /** The placeholder glyph a log entry gets when its food has no icon (App.tsx). */
  const FallbackIcon: string := "🍱"

  /** The catalogue has 25 foods, with the ids "1" to "25", no two alike. */
  lemma InitialIdsDistinct()
    ensures |InitialFoodDb| == 25
    ensures forall i, j :: 0 <= i < j < |InitialFoodDb| ==> InitialFoodDb[i].id != InitialFoodDb[j].id
    ensures forall i :: 0 <= i < |InitialFoodDb| ==>
      InitialFoodDb[i].id in {"1", "2", "3", "4", "5", "6", "7", "8", "9", "10", "11", "12", "13",
                              "14", "15", "16", "17", "18", "19", "20", "21", "22", "23", "24", "25"}
  {
  }

  /** Every built-in food has a positive calorie figure and no negative nutrient. */
  lemma InitialNutrientsSound()
    ensures forall i :: 0 <= i < |InitialFoodDb| ==>
      var f := InitialFoodDb[i];
      f.calories > 0.0 && f.protein >= 0.0 && f.fat >= 0.0 && f.carbs >= 0.0
  {
  }

  /** Every built-in food has an icon of its own, never the fallback glyph. */
  lemma InitialIconsPresent()
    ensures forall i :: 0 <= i < |InitialFoodDb| ==>
      InitialFoodDb[i].icon != "" && InitialFoodDb[i].icon != FallbackIcon
  {
  }
}
