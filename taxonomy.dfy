/**
 * The fixed question taxonomy of the rating engine: the six scoring categories with
 * their question tags, and the table that routes a tag to a special handler or to one
 * of the per-topic side lists before the generic category bucket is considered.
 */
module Taxonomy {
  import opened Options

  /** The six scoring categories, declared in the order of the category table. */
  datatype Category = Stress | Nutrition | EatingBehavior | WorkAssessment | Lifestyle | MedicoBiological

  const AllCategories: seq<Category> :=
    [Stress, Nutrition, EatingBehavior, WorkAssessment, Lifestyle, MedicoBiological]

  const CategorySet: set<Category> :=
    {Stress, Nutrition, EatingBehavior, WorkAssessment, Lifestyle, MedicoBiological}

  /** The dictionary key of a category; the scorecard stores its average under "<key>_avg". */
  function CategoryKey(c: Category): string {
    match c
    case Stress => "stress"
    case Nutrition => "nutrition"
    case EatingBehavior => "eating_behavior"
    case WorkAssessment => "work_assessment"
    case Lifestyle => "lifestyle"
    case MedicoBiological => "medico_biological"
  }

  /** One row of the category table: the category, its caption (label) and its question tags. */
  datatype CategoryEntry = CategoryEntry(category: Category, caption: string, tags: seq<string>)

  /** The category table, in the rating engine's order; first match wins when a tag is looked up. */
  const CategoryTable: seq<CategoryEntry> := [
    CategoryEntry(Stress, "СТРЕСС", ["СТРЕСС"]),
    CategoryEntry(Nutrition, "ПИТАНИЕ", [
      "ПИТАНИЕ", "ПРИЕМЫ ПИЩИ", "ВРЕМЯ ПЕРЕРЫВОВ МЕЖДУ ЕДОЙ", "ЗАВТРАК",
      "НАИБОЛЕЕ ПЛОТНЫЙ ПРИЕМ ПИЩИ", "ЕДА ДО СНА", "ВИД ЖИРОВ", "ГОЛОД",
      "ЭМОЦИОНАЛЬНЫЕ ПЕРЕКУСЫ", "ПООЩРЕНИЕ ИЛИ НАКАЗАНИЕ ЕДОЙ"]),
    CategoryEntry(EatingBehavior, "Пищевое поведение", [
      "ПИЩЕВОЕ ПОВЕДЕНИЕ", "СНЕКИ", "ФАСТ-ФУД", "СЛАДКАЯ ГАЗИРОВКА",
      "КОЛБАСНЫЕ ИЗДЕЛИЯ", "КОПЧЕНЫЕ ПРОДУКТЫ", "ПИЩЕВЫЕ ЖИРЫ", "СОУСЫ",
      "ЖАРЕННЫЙ КАРТОФЕЛЬ", "СОЛЕНЫЕ И КОНСЕРВИРОВАННЫЕ ПРОДУКТЫ",
      "МОЛОЧНЫЕ ПРОДУКТЫ С ВЫСОКОЙ ЖИРНОСТЬЮ", "ВЫПЕЧКА",
      "КОЛИЧЕСТВО ФРУКТОВ И ОВОЩЕЙ", "ЗЛАКОВЫЕ ПРОДУКТЫ", "БОБОВЫЕ",
      "НЕЖИРНОЕ МЯСО", "РЫБА И МОРЕПРОДУКТЫ", "МОЛОКО И КИСЛОМОЛОЧКА",
      "РАСТИТЕЛЬНЫЕ МАСЛА", "ЖИДКОСТЬ В ДЕНЬ", "ДОСАЛИВАНИЕ",
      "СПЕЦИАЛЬНАЯ ПИЩЕВАЯ ПРОДУКЦИЯ", "БАДЫ"]),
    CategoryEntry(WorkAssessment, "Самооценка труда", [
      "САМООЦЕНКА ТРУДОВОГО ПРОЦЕССА", "РАБОЧЕЕ МЕСТО", "ФИЗИЧЕСКИЕ НАГРУЗКИ",
      "ТЕМП РАБОТЫ", "ЭМОЦИОНАЛЬНАЯ НАГРУЗКА", "УТОМЛЯЕМОСТЬ", "ГРАФИК РАБОТЫ",
      "ТРУД С ЦИФРОВЫМИ УСТРОЙСТВАМИ", "КРИТИЧЕСКИЕ СИТУАЦИИ", "ЭКСТРА УСИЛИЯ",
      "РЕГЛАМЕНТИРОВАННЫЕ ПЕРЕРЫВЫ", "ОБЕДЕННЫЙ ПЕРЕРЫВ", "РАБОТА НА ДОМУ"]),
    CategoryEntry(Lifestyle, "Образ жизни и ФАиРД", [
      "ДВИГАТЕЛЬНАЯ АКТИВНОСТЬ", "СОН", "ЦИФРОВАЯ ГИГИЕНА", "ОТПУСК", "АЛКОГОЛЬ",
      "ОБРАЗ ЖИЗНИ И РЕЖИМ ДНЯ", SmokingCigarettesTag, SmokingYearsTag]),
    CategoryEntry(MedicoBiological, "Медико-биологические факторы", [
      "МЕДИКО-БИОЛОГИЧЕСКИЕ ФАКТОРЫ", "Имеющиеся заболевания", "ОКРУЖНОСТЬ (ТАЛИИ)",
      "ОКРУЖНОСТЬ (БЕДЕР)", "АРТЕРИАЛЬНОЕ ДАВЛЕНИЕ", "ОБЩИЙ ХОЛЕСТЕРИН", "УРОВЕНЬ ГЛЮКОЗЫ"])
  ]

  const SmokingCigarettesTag: string := "Курение (сигарет в день)"
  const SmokingYearsTag: string := "Курение (лет стажа)"

  /**
   * First-match search of `tag` through the rows of `table`: the category of the first
   * row whose tag list contains `tag`, or None when no row does.
   */
  function FindCategory(tag: string, table: seq<CategoryEntry>): (r: Option<Category>)
    ensures r.None? <==> forall i :: 0 <= i < |table| ==> tag !in table[i].tags
    ensures r.Some? ==> exists i :: 0 <= i < |table| && table[i].category == r.value
                          && tag in table[i].tags
                          && forall j :: 0 <= j < i ==> tag !in table[j].tags
  {
    if table == [] then None
    else if tag in table[0].tags then Some(table[0].category)
    else
      var r := FindCategory(tag, table[1..]);
      assert r.Some? ==> exists i :: 1 <= i < |table| && table[i].category == r.value
                            && tag in table[i].tags
                            && forall j :: 0 <= j < i ==> tag !in table[j].tags by {
        if r.Some? {
          var k :| 0 <= k < |table| - 1 && table[1..][k].category == r.value
                   && tag in table[1..][k].tags
                   && forall j :: 0 <= j < k ==> tag !in table[1..][j].tags;
          forall j | 0 <= j < k + 1 ensures tag !in table[j].tags {
            if j > 0 { assert table[j] == table[1..][j - 1]; }
          }
        }
      }
      r
  }

  /** The row of the category table that belongs to each category. */
  function CategoryRow(c: Category): (i: nat)
    ensures i < |CategoryTable| && CategoryTable[i].category == c
  {
    match c
    case Stress => 0
    case Nutrition => 1
    case EatingBehavior => 2
    case WorkAssessment => 3
    case Lifestyle => 4
    case MedicoBiological => 5
  }

  /**
   * The category of a question tag: None when no row lists the tag, otherwise the category
   * whose row lists it while no earlier row does.
   */
  function GetResponseCategory(tag: string): (r: Option<Category>)
    ensures r.None? <==> forall i :: 0 <= i < |CategoryTable| ==> tag !in CategoryTable[i].tags
    ensures r.Some? ==> tag in CategoryTable[CategoryRow(r.value)].tags
                        && forall j :: 0 <= j < CategoryRow(r.value) ==> tag !in CategoryTable[j].tags
  {
    FoundRow(tag);
    FindCategory(tag, CategoryTable)
  }

  /** The row in which the lookup finds a tag is its category's own row. */
  lemma FoundRow(tag: string)
    ensures var r := FindCategory(tag, CategoryTable);
            r.Some? ==> tag in CategoryTable[CategoryRow(r.value)].tags
                        && forall j :: 0 <= j < CategoryRow(r.value) ==> tag !in CategoryTable[j].tags
  {
    var r := FindCategory(tag, CategoryTable);
    if r.Some? {
      var i :| 0 <= i < |CategoryTable| && CategoryTable[i].category == r.value
               && tag in CategoryTable[i].tags
               && forall j :: 0 <= j < i ==> tag !in CategoryTable[j].tags;
      RowsDistinct(i, CategoryRow(r.value));
    }
  }

  /** Each category has one row. */
  lemma RowsDistinct(i: nat, j: nat)
    requires i < |CategoryTable| && j < |CategoryTable|
    requires CategoryTable[i].category == CategoryTable[j].category
    ensures i == j
  {
  }

  /** The per-topic side lists that some intercepted tags feed instead of a category bucket. */
  datatype Topic =
    // lifestyle
    | PhysicalActivity | Sleep | DigitalHygiene
    // work assessment
    | Workplace | PhysicalLoad | WorkPace | EmotionalLoad | Fatigue | Schedule | DigitalWork
    | Critical | ExtraEffort | Breaks | LunchBreak | RemoteWork
    // nutrition
    | Meal | Interval | Breakfast | Density | EveningMeal | Fat | Hunger | EmotionalEating | FoodReward
    // eating behaviour
    | Snack | FastFood | Soda | Sausage | Smoked | FatProduct | Sauce | FriedPotato | Salted
    | HighFatDairy | Baking | Grain | Legume | LeanMeat | Seafood | Dairy | Liquid | SaltAddition
    | SpecialFood | Supplements

  /** Intercepted tags that only record that the question was answered. */
  datatype Marker = Vacation | Alcohol | FruitsVeggies | Oil

  /** Where an intercepted tag goes. */
  datatype Special =
    | Waist | Hip | Cholesterol | Glucose | Diseases | BloodPressure
    | Side(topic: Topic)
    | Mark(marker: Marker)

  /**
   * The interception table of the special-question dispatcher, checked in its own
   * order (the first matching tag wins): None means the tag is not intercepted and goes
   * on to the category table.
   */
  function SpecialRoute(tag: string): Option<Special> {
    if tag == "ОКРУЖНОСТЬ (ТАЛИИ)" then Some(Waist)
    else if tag == "ОКРУЖНОСТЬ (БЕДЕР)" then Some(Hip)
    else if tag == "ОБЩИЙ ХОЛЕСТЕРИН" then Some(Cholesterol)
    else if tag == "УРОВЕНЬ ГЛЮКОЗЫ" then Some(Glucose)
    else if tag == "Имеющиеся заболевания" then Some(Diseases)
    else if tag == "АРТЕРИАЛЬНОЕ ДАВЛЕНИЕ" then Some(BloodPressure)
    // lifestyle
    else if tag == "ДВИГАТЕЛЬНАЯ АКТИВНОСТЬ" then Some(Side(PhysicalActivity))
    else if tag == "СОН" then Some(Side(Sleep))
    else if tag == "ЦИФРОВАЯ ГИГИЕНА" then Some(Side(DigitalHygiene))
    else if tag == "ОТПУСК" then Some(Mark(Vacation))
    else if tag == "АЛКОГОЛЬ" then Some(Mark(Alcohol))
    // work assessment
    else if tag == "РАБОЧЕЕ МЕСТО" then Some(Side(Workplace))
    else if tag == "ФИЗИЧЕСКИЕ НАГРУЗКИ" then Some(Side(PhysicalLoad))
    else if tag == "ТЕМП РАБОТЫ" then Some(Side(WorkPace))
    else if tag == "ЭМОЦИОНАЛЬНАЯ НАГРУЗКА" then Some(Side(EmotionalLoad))
    else if tag == "УТОМЛЯЕМОСТЬ" then Some(Side(Fatigue))
    else if tag == "ГРАФИК РАБОТЫ" then Some(Side(Schedule))
    else if tag == "ТРУД С ЦИФРОВЫМИ УСТРОЙСТВАМИ" then Some(Side(DigitalWork))
    else if tag == "КРИТИЧЕСКИЕ СИТУАЦИИ" then Some(Side(Critical))
    else if tag == "ЭКСТРА УСИЛИЯ" then Some(Side(ExtraEffort))
    else if tag == "РЕГЛАМЕНТИРОВАННЫЕ ПЕРЕРЫВЫ" then Some(Side(Breaks))
    else if tag == "ОБЕДЕННЫЙ ПЕРЕРЫВ" then Some(Side(LunchBreak))
    else if tag == "РАБОТА НА ДОМУ" then Some(Side(RemoteWork))
    // nutrition
    else if tag == "ПРИЕМЫ ПИЩИ" then Some(Side(Meal))
    else if tag == "ВРЕМЯ ПЕРЕРЫВОВ МЕЖДУ ЕДОЙ" then Some(Side(Interval))
    else if tag == "ЗАВТРАК" then Some(Side(Breakfast))
    else if tag == "НАИБОЛЕЕ ПЛОТНЫЙ ПРИЕМ ПИЩИ" then Some(Side(Density))
    else if tag == "ЕДА ДО СНА" then Some(Side(EveningMeal))
    else if tag == "ВИД ЖИРОВ" then Some(Side(Fat))
    else if tag == "ГОЛОД" then Some(Side(Hunger))
    else if tag == "ЭМОЦИОНАЛЬНЫЕ ПЕРЕКУСЫ" then Some(Side(EmotionalEating))
    else if tag == "ПООЩРЕНИЕ ИЛИ НАКАЗАНИЕ ЕДОЙ" then Some(Side(FoodReward))
    // eating behaviour
    else if tag == "СНЕКИ" then Some(Side(Snack))
    else if tag == "ФАСТ-ФУД" then Some(Side(FastFood))
    else if tag == "СЛАДКАЯ ГАЗИРОВКА" then Some(Side(Soda))
    else if tag == "КОЛБАСНЫЕ ИЗДЕЛИЯ" then Some(Side(Sausage))
    else if tag == "КОПЧЕНЫЕ ПРОДУКТЫ" then Some(Side(Smoked))
    else if tag == "ПИЩЕВЫЕ ЖИРЫ" then Some(Side(FatProduct))
    else if tag == "СОУСЫ" then Some(Side(Sauce))
    else if tag == "ЖАРЕННЫЙ КАРТОФЕЛЬ" then Some(Side(FriedPotato))
    else if tag == "СОЛЕНЫЕ И КОНСЕРВИРОВАННЫЕ ПРОДУКТЫ" then Some(Side(Salted))
    else if tag == "МОЛОЧНЫЕ ПРОДУКТЫ С ВЫСОКОЙ ЖИРНОСТЬЮ" then Some(Side(HighFatDairy))
    else if tag == "ВЫПЕЧКА" then Some(Side(Baking))
    else if tag == "КОЛИЧЕСТВО ФРУКТОВ И ОВОЩЕЙ" then Some(Mark(FruitsVeggies))
    else if tag == "ЗЛАКОВЫЕ ПРОДУКТЫ" then Some(Side(Grain))
    else if tag == "БОБОВЫЕ" then Some(Side(Legume))
    else if tag == "НЕЖИРНОЕ МЯСО" then Some(Side(LeanMeat))
    else if tag == "РЫБА И МОРЕПРОДУКТЫ" then Some(Side(Seafood))
    else if tag == "МОЛОКО И КИСЛОМОЛОЧКА" then Some(Side(Dairy))
    else if tag == "РАСТИТЕЛЬНЫЕ МАСЛА" then Some(Mark(Oil))
    else if tag == "ЖИДКОСТЬ В ДЕНЬ" then Some(Side(Liquid))
    else if tag == "ДОСАЛИВАНИЕ" then Some(Side(SaltAddition))
    else if tag == "СПЕЦИАЛЬНАЯ ПИЩЕВАЯ ПРОДУКЦИЯ" then Some(Side(SpecialFood))
    else if tag == "БАДЫ" then Some(Side(Supplements))
    else None
  }

  // ---------------------------------------------------------------- where the smoking tags go

  /** The smoking tags differ from every intercepted tag (checked a few literals at a time). */
  lemma SmokingTagNotIntercepted0(tag: string)
    requires tag == SmokingCigarettesTag || tag == SmokingYearsTag
    ensures tag != "ОКРУЖНОСТЬ (ТАЛИИ)"
      && tag != "ОКРУЖНОСТЬ (БЕДЕР)"
      && tag != "ОБЩИЙ ХОЛЕСТЕРИН"
      && tag != "УРОВЕНЬ ГЛЮКОЗЫ"
      && tag != "Имеющиеся заболевания"
      && tag != "АРТЕРИАЛЬНОЕ ДАВЛЕНИЕ"
      && tag != "ДВИГАТЕЛЬНАЯ АКТИВНОСТЬ"
      && tag != "СОН"
      && tag != "ЦИФРОВАЯ ГИГИЕНА"
      && tag != "ОТПУСК"
      && tag != "АЛКОГОЛЬ"
      && tag != "РАБОЧЕЕ МЕСТО"
      && tag != "ФИЗИЧЕСКИЕ НАГРУЗКИ"
      && tag != "ТЕМП РАБОТЫ"
  {
  }

  lemma SmokingTagNotIntercepted1(tag: string)
    requires tag == SmokingCigarettesTag || tag == SmokingYearsTag
    ensures tag != "ЭМОЦИОНАЛЬНАЯ НАГРУЗКА"
      && tag != "УТОМЛЯЕМОСТЬ"
      && tag != "ГРАФИК РАБОТЫ"
      && tag != "ТРУД С ЦИФРОВЫМИ УСТРОЙСТВАМИ"
      && tag != "КРИТИЧЕСКИЕ СИТУАЦИИ"
      && tag != "ЭКСТРА УСИЛИЯ"
      && tag != "РЕГЛАМЕНТИРОВАННЫЕ ПЕРЕРЫВЫ"
      && tag != "ОБЕДЕННЫЙ ПЕРЕРЫВ"
      && tag != "РАБОТА НА ДОМУ"
      && tag != "ПРИЕМЫ ПИЩИ"
      && tag != "ВРЕМЯ ПЕРЕРЫВОВ МЕЖДУ ЕДОЙ"
      && tag != "ЗАВТРАК"
      && tag != "НАИБОЛЕЕ ПЛОТНЫЙ ПРИЕМ ПИЩИ"
      && tag != "ЕДА ДО СНА"
  {
  }

  lemma SmokingTagNotIntercepted2(tag: string)
    requires tag == SmokingCigarettesTag || tag == SmokingYearsTag
    ensures tag != "ВИД ЖИРОВ"
      && tag != "ГОЛОД"
      && tag != "ЭМОЦИОНАЛЬНЫЕ ПЕРЕКУСЫ"
      && tag != "ПООЩРЕНИЕ ИЛИ НАКАЗАНИЕ ЕДОЙ"
      && tag != "СНЕКИ"
      && tag != "ФАСТ-ФУД"
      && tag != "СЛАДКАЯ ГАЗИРОВКА"
      && tag != "КОЛБАСНЫЕ ИЗДЕЛИЯ"
      && tag != "КОПЧЕНЫЕ ПРОДУКТЫ"
      && tag != "ПИЩЕВЫЕ ЖИРЫ"
      && tag != "СОУСЫ"
      && tag != "ЖАРЕННЫЙ КАРТОФЕЛЬ"
      && tag != "СОЛЕНЫЕ И КОНСЕРВИРОВАННЫЕ ПРОДУКТЫ"
      && tag != "МОЛОЧНЫЕ ПРОДУКТЫ С ВЫСОКОЙ ЖИРНОСТЬЮ"
  {
  }

  lemma SmokingTagNotIntercepted3(tag: string)
    requires tag == SmokingCigarettesTag || tag == SmokingYearsTag
    ensures tag != "ВЫПЕЧКА"
      && tag != "КОЛИЧЕСТВО ФРУКТОВ И ОВОЩЕЙ"
      && tag != "ЗЛАКОВЫЕ ПРОДУКТЫ"
      && tag != "БОБОВЫЕ"
      && tag != "НЕЖИРНОЕ МЯСО"
      && tag != "РЫБА И МОРЕПРОДУКТЫ"
      && tag != "МОЛОКО И КИСЛОМОЛОЧКА"
      && tag != "РАСТИТЕЛЬНЫЕ МАСЛА"
      && tag != "ЖИДКОСТЬ В ДЕНЬ"
      && tag != "ДОСАЛИВАНИЕ"
      && tag != "СПЕЦИАЛЬНАЯ ПИЩЕВАЯ ПРОДУКЦИЯ"
      && tag != "БАДЫ"
  {
  }

  /** Neither smoking tag is intercepted by a special handler. */
  lemma SmokingTagsNotIntercepted(tag: string)
    requires tag == SmokingCigarettesTag || tag == SmokingYearsTag
    ensures SpecialRoute(tag).None?
  {
    SmokingTagNotIntercepted0(tag);
    SmokingTagNotIntercepted1(tag);
    SmokingTagNotIntercepted2(tag);
    SmokingTagNotIntercepted3(tag);
  }

  /** The smoking tags are in none of the rows before the lifestyle row. */
  lemma SmokingTagNotInRow0(tag: string)
    requires tag == SmokingCigarettesTag || tag == SmokingYearsTag
    ensures tag !in CategoryTable[0].tags
  {
  }

  lemma SmokingTagNotInRow1(tag: string)
    requires tag == SmokingCigarettesTag || tag == SmokingYearsTag
    ensures tag !in CategoryTable[1].tags
  {
  }

  lemma CigarettesTagNotInRow2()
    ensures SmokingCigarettesTag !in CategoryTable[2].tags
  {
  }

  lemma YearsTagNotInRow2()
    ensures SmokingYearsTag !in CategoryTable[2].tags
  {
  }

  lemma SmokingTagNotInRow2(tag: string)
    requires tag == SmokingCigarettesTag || tag == SmokingYearsTag
    ensures tag !in CategoryTable[2].tags
  {
    CigarettesTagNotInRow2();
    YearsTagNotInRow2();
  }

  lemma SmokingTagNotInRow3(tag: string)
    requires tag == SmokingCigarettesTag || tag == SmokingYearsTag
    ensures tag !in CategoryTable[3].tags
  {
  }

  /** Both smoking tags are looked up in the lifestyle row. */
  lemma SmokingTagsAreLifestyle(tag: string)
    requires tag == SmokingCigarettesTag || tag == SmokingYearsTag
    ensures GetResponseCategory(tag) == Some(Lifestyle)
  {
    SmokingTagNotInRow0(tag);
    SmokingTagNotInRow1(tag);
    SmokingTagNotInRow2(tag);
    SmokingTagNotInRow3(tag);
    assert CategoryTable[4].category == Lifestyle && tag in CategoryTable[4].tags;
    FirstListingRow(tag, CategoryTable, 4);
  }

  /** The lookup answers with the category of the first row that lists the tag. */
  lemma FirstListingRow(tag: string, table: seq<CategoryEntry>, k: nat)
    requires k < |table| && tag in table[k].tags
    requires forall j :: 0 <= j < k ==> tag !in table[j].tags
    ensures FindCategory(tag, table) == Some(table[k].category)
  {
    var r := FindCategory(tag, table);
    var i :| 0 <= i < |table| && table[i].category == r.value && tag in table[i].tags
             && forall j :: 0 <= j < i ==> tag !in table[j].tags;
    assert i == k;
  }
}
