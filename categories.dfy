/**
 * Bulgarian display names of the service categories and subcategories:
 * the three tables of app.js and `translateCategoryToBG` /
 * `translateSubcategoryToBG`, which accept either a category key or its
 * English label.
 */
module Categories {
  import opened Common
  import opened Text

  /** `CATEGORY_LABELS`: each category key with its English label, in display order. */
  const CategoryLabels: seq<(string, string)> := [
    ("gardening", "Gardening"),
    ("home-repairs", "Home Repairs"),
    ("short-stays", "Short-term stays"),
    ("long-stays", "Long-term stays"),
    ("building", "Building"),
    ("finance", "Finance"),
    ("it-lessons", "IT Lessons"),
    ("car-repairs", "Car Repairs"),
    ("sport", "Sport"),
    ("pets", "Pets"),
    ("art", "Art"),
    ("beauty", "Beauty"),
    ("healthcare", "Healthcare"),
    ("fashion", "Fashion"),
    ("cooking", "Cooking")
  ]

  /** `CATEGORY_LABELS_BG`: the Bulgarian name of each category key. */
  const CategoryNamesBG: map<string, string> := map[
    "gardening" := "Градинарство",
    "home-repairs" := "Домашни поправки",
    "short-stays" := "Кратки престои",
    "long-stays" := "Дългосрочни престои",
    "building" := "Строителство",
    "finance" := "Финанси",
    "it-lessons" := "ИТ уроци",
    "car-repairs" := "Ремонт на автомобили",
    "sport" := "Спорт",
    "pets" := "Домашни любимци",
    "art" := "Изкуство",
    "beauty" := "Красота",
    "healthcare" := "Здравеопазване",
    "fashion" := "Мода",
    "cooking" := "Готвене"
  ]

  /** `SUBCATEGORY_MAP_BG`: per category key, the Bulgarian name of each subcategory. */
  const SubcategoryNamesBG: map<string, map<string, string>> := map[
    "gardening" := map["Plants" := "Растения", "Landscaping" := "Озеленяване", "Tools" := "Инструменти"],
    "home-repairs" := map["Plumbing" := "Водопровод", "Electrical" := "Електричество", "Painting" := "Боядисване"],
    "short-stays" := map["Room" := "Стая", "Studio" := "Студио", "Apartment" := "Апартамент"],
    "long-stays" := map["Room" := "Стая", "House" := "Къща", "Apartment" := "Апартамент"],
    "building" := map["Renovation" := "Реновация", "Construction" := "Строителство", "Consulting" := "Консултации"],
    "finance" := map["Budgeting" := "Бюджетиране", "Taxes" := "Данъци", "Investing" := "Инвестиции"],
    "it-lessons" := map["Programming" := "Програмиране", "Office Tools" := "Офис инструменти", "Cybersecurity" := "Киберсигурност"],
    "car-repairs" := map["Engine" := "Двигател", "Tires" := "Гуми", "Diagnostics" := "Диагностика"],
    "sport" := map["Fitness" := "Фитнес", "Team Sports" := "Отборни спортове", "Coaching" := "Тренировки"],
    "pets" := map["Grooming" := "Подстригване", "Training" := "Дресировка", "Sitting" := "Гледане"],
    "art" := map["Painting" := "Рисуване", "Drawing" := "Чертане", "Crafts" := "Занаяти"],
    "beauty" := map["Makeup" := "Грим", "Skincare" := "Грижа за кожата", "Hair" := "Коса"],
    "healthcare" := map["Wellness" := "Здравословен начин на живот", "First Aid" := "Първа помощ", "Nutrition" := "Хранене"],
    "fashion" := map["Styling" := "Стилизиране", "Tailoring" := "Шивачество", "Design" := "Дизайн"],
    "cooking" := map["Baking" := "Печене", "Meal Prep" := "Приготвяне на храна", "World Cuisine" := "Световна кухня"]
  ]

  /**
   * `CATEGORY_LABELS.find(...)`: the key of the first pair whose label satisfies
   * the comparison, compared exactly or, with `ignoreCase`, after lower-casing both sides.
   */
  function KeyOfLabel(entries: seq<(string, string)>, text: string, ignoreCase: bool): (key: Option<string>)
    ensures key.None? <==> forall i :: 0 <= i < |entries| ==> !LabelMatches(entries[i].1, text, ignoreCase)
    ensures key.Some? ==> exists i :: 0 <= i < |entries| && entries[i].0 == key.value
                                      && LabelMatches(entries[i].1, text, ignoreCase)
                                      && forall j :: 0 <= j < i ==> !LabelMatches(entries[j].1, text, ignoreCase)
  {
    if entries == [] then None
    else if LabelMatches(entries[0].1, text, ignoreCase) then Some(entries[0].0)
    else
      var key := KeyOfLabel(entries[1..], text, ignoreCase);
      assert forall i :: 1 <= i < |entries| ==> entries[i] == entries[1..][i - 1];
      key
  }

  predicate LabelMatches(shownLabel: string, text: string, ignoreCase: bool) {
    if ignoreCase then ToLower(shownLabel) == ToLower(text) else shownLabel == text
  }

  /** `CATEGORY_LABELS_BG[k]` read as a JavaScript truthy value. */
  predicate HasName(names: map<string, string>, k: string) {
    k in names && names[k] != []
  }

  /**
   * `translateCategoryToBG(categoryKey)` over a name table and a label list:
   * `''` for an empty key, the name of a key, the name of the key an English
   * label belongs to, and otherwise the input unchanged.
   */
  function TranslateCategory(names: map<string, string>, entries: seq<(string, string)>, category: string): (shown: string)
    ensures category == [] ==> shown == []
    ensures category != [] && HasName(names, category) ==> shown == names[category]
    ensures (category != [] && !HasName(names, category) &&
             KeyOfLabel(entries, category, false).Some?) ==>
              var key := KeyOfLabel(entries, category, false).value;
              shown == (if HasName(names, key) then names[key] else category)
    ensures (category != [] && !HasName(names, category) &&
             KeyOfLabel(entries, category, false).None?) ==> shown == category
  {
    if category == [] then []
    else if HasName(names, category) then names[category]
    else
      match KeyOfLabel(entries, category, false)
      case Some(key) => if HasName(names, key) then names[key] else category
      case None => category
  }

  function TranslateCategoryToBG(category: string): (shown: string)
    ensures category == [] ==> shown == []
    ensures HasName(CategoryNamesBG, category) ==> shown == CategoryNamesBG[category]
  {
    TranslateCategory(CategoryNamesBG, CategoryLabels, category)
  }

  /**
   * `translateSubcategoryToBG(categoryKey, subcategoryValue)` over the per-category
   * tables and the label list: the category is taken as a key, or else as an
   * English label compared without regard to case; the subcategory's name in
   * that category's table, otherwise the subcategory unchanged.
   */
  function TranslateSubcategory(tables: map<string, map<string, string>>, entries: seq<(string, string)>,
                                category: string, subcategory: string): (shown: string)
    ensures subcategory == [] || category == [] ==> shown == []
    ensures subcategory != [] && category != [] ==>
              shown == subcategory || exists k :: k in tables && HasName(tables[k], subcategory)
                                                  && shown == tables[k][subcategory]
    ensures (subcategory != [] && category != [] && category in tables) ==>
              shown == (if HasName(tables[category], subcategory) then tables[category][subcategory] else subcategory)
    ensures (subcategory != [] && category != [] && category !in tables &&
             KeyOfLabel(entries, category, true).Some?) ==>
              var key := KeyOfLabel(entries, category, true).value;
              shown == (if key in tables && HasName(tables[key], subcategory) then tables[key][subcategory] else subcategory)
    ensures (subcategory != [] && category != [] && category !in tables &&
             KeyOfLabel(entries, category, true).None?) ==> shown == subcategory
  {
    if subcategory == [] || category == [] then []
    else
      var key :=
        if category in tables then category
        else match KeyOfLabel(entries, category, true)
             case Some(k) => k
             case None => category;
      if key in tables && HasName(tables[key], subcategory)
      then tables[key][subcategory]
      else subcategory
  }

  function TranslateSubcategoryToBG(category: string, subcategory: string): (shown: string)
    ensures subcategory == [] || category == [] ==> shown == []
    ensures (subcategory != [] && category != [] && category in SubcategoryNamesBG) ==>
              shown == (if HasName(SubcategoryNamesBG[category], subcategory)
                        then SubcategoryNamesBG[category][subcategory] else subcategory)
  {
    TranslateSubcategory(SubcategoryNamesBG, CategoryLabels, category, subcategory)
  }

  /** The labels are told apart even after lower-casing, and none of them is itself a key. */
  predicate LabelsDistinct(entries: seq<(string, string)>) {
    forall i, j :: 0 <= i < j < |entries| ==> ToLower(entries[i].1) != ToLower(entries[j].1)
  }

  /** With distinct labels, looking a label up finds the key it is paired with. */
  lemma {:induction false} KeyOfOwnLabel(entries: seq<(string, string)>, i: nat, ignoreCase: bool)
    requires LabelsDistinct(entries) && i < |entries|
    ensures KeyOfLabel(entries, entries[i].1, ignoreCase) == Some(entries[i].0)
  {
    if i > 0 {
      assert ToLower(entries[0].1) != ToLower(entries[i].1);
      assert LabelsDistinct(entries[1..]) by {
        forall a, b | 0 <= a < b < |entries| - 1
          ensures ToLower(entries[1..][a].1) != ToLower(entries[1..][b].1)
        {
          assert entries[1..][a] == entries[a + 1] && entries[1..][b] == entries[b + 1];
        }
      }
      KeyOfOwnLabel(entries[1..], i - 1, ignoreCase);
    }
  }

  /** The length of a label and its last letter in lower case; two labels with different tags differ after lower-casing. */
  function Tag(s: string): (int, char) {
    if s == [] then (0, ' ') else (|s|, LowerChar(s[|s| - 1]))
  }

  lemma TagSeparates(a: string, b: string)
    requires Tag(a) != Tag(b)
    ensures ToLower(a) != ToLower(b)
  {
    if |a| == |b| && a != [] {
      assert ToLower(a)[|a| - 1] != ToLower(b)[|b| - 1];
    }
  }

  lemma CategoryLabelsDistinct()
    ensures LabelsDistinct(CategoryLabels)
  {
    forall i, j | 0 <= i < j < |CategoryLabels|
      ensures ToLower(CategoryLabels[i].1) != ToLower(CategoryLabels[j].1)
    {
      TagSeparates(CategoryLabels[i].1, CategoryLabels[j].1);
    }
  }

  /** Keys are written in lower case and labels start with a capital, so no label is a key. */
  lemma LabelIsNotKey(i: nat)
    requires i < |CategoryLabels|
    ensures CategoryLabels[i].1 !in CategoryNamesBG && CategoryLabels[i].1 !in SubcategoryNamesBG
  {
    var shown := CategoryLabels[i].1;
    assert 'A' <= shown[0] <= 'Z';
    NameKeysStartLowerCase(shown);
    TableKeysStartLowerCase(shown);
  }

  /** Every key of the name table starts with a lower-case letter. */
  lemma NameKeysStartLowerCase(s: string)
    requires s != [] && 'A' <= s[0] <= 'Z'
    ensures s !in CategoryNamesBG
  {
  }

  /** Every key of the subcategory tables starts with a lower-case letter. */
  lemma TableKeysStartLowerCase(s: string)
    requires s != [] && 'A' <= s[0] <= 'Z'
    ensures s !in SubcategoryNamesBG
  {
  }

  /** Every category of the label list has a Bulgarian name and a subcategory table. */
  lemma KeyIsNamed(i: nat)
    requires i < |CategoryLabels|
    ensures CategoryLabels[i].0 != [] && HasName(CategoryNamesBG, CategoryLabels[i].0) && CategoryLabels[i].0 in SubcategoryNamesBG
  {
  }

  /** With distinct labels that are not keys themselves, a label translates exactly like its key. */
  lemma LabelLikeKey(names: map<string, string>, entries: seq<(string, string)>, i: nat)
    requires LabelsDistinct(entries) && i < |entries|
    requires entries[i].0 != [] && entries[i].1 != [] && entries[i].1 !in names && HasName(names, entries[i].0)
    ensures TranslateCategory(names, entries, entries[i].1) == TranslateCategory(names, entries, entries[i].0)
    ensures TranslateCategory(names, entries, entries[i].1) == names[entries[i].0]
  {
    KeyOfOwnLabel(entries, i, false);
  }

  /** The same for subcategories, with the label in any letter case. */
  lemma SubcategoryLabelLikeKey(tables: map<string, map<string, string>>, entries: seq<(string, string)>,
                                i: nat, spelled: string, subcategory: string)
    requires LabelsDistinct(entries) && i < |entries| && entries[i].0 != [] && entries[i].0 in tables
    requires spelled != [] && ToLower(spelled) == ToLower(entries[i].1) && spelled !in tables
    ensures TranslateSubcategory(tables, entries, spelled, subcategory) == TranslateSubcategory(tables, entries, entries[i].0, subcategory)
  {
    KeyOfOwnLabel(entries, i, true);
    assert KeyOfLabel(entries, spelled, true) == KeyOfLabel(entries, entries[i].1, true) by {
      SameLowerSameKey(entries, spelled, entries[i].1);
    }
  }

  lemma {:induction false} SameLowerSameKey(entries: seq<(string, string)>, a: string, b: string)
    requires ToLower(a) == ToLower(b)
    ensures KeyOfLabel(entries, a, true) == KeyOfLabel(entries, b, true)
  {
    if entries != [] {
      SameLowerSameKey(entries[1..], a, b);
    }
  }

  /** For the tables of the application: an English label shows the Bulgarian name of its category. */
  lemma LabelTranslatesLikeKey(i: nat)
    requires i < |CategoryLabels|
    ensures TranslateCategoryToBG(CategoryLabels[i].1) == TranslateCategoryToBG(CategoryLabels[i].0)
    ensures CategoryLabels[i].0 in CategoryNamesBG
            && TranslateCategoryToBG(CategoryLabels[i].1) == CategoryNamesBG[CategoryLabels[i].0]
  {
    CategoryLabelsDistinct();
    LabelIsNotKey(i);
    KeyIsNamed(i);
    LabelLikeKey(CategoryNamesBG, CategoryLabels, i);
  }

  /** For the tables of the application: the label, in the letter case it was given, selects its category's subcategories. */
  lemma SubcategoryUnderLabel(i: nat, subcategory: string)
    requires i < |CategoryLabels|
    ensures TranslateSubcategoryToBG(CategoryLabels[i].1, subcategory) == TranslateSubcategoryToBG(CategoryLabels[i].0, subcategory)
  {
    CategoryLabelsDistinct();
    LabelIsNotKey(i);
    KeyIsNamed(i);
    SubcategoryLabelLikeKey(SubcategoryNamesBG, CategoryLabels, i, CategoryLabels[i].1, subcategory);
  }

  /** A label in capitals still finds its subcategories: `FINANCE` / `Taxes` is shown as `Данъци`. */
  lemma CapitalisedLabelTranslated()
    ensures TranslateSubcategoryToBG("FINANCE", "Taxes") == "Данъци"
  {
    var finance := CategoryLabels[5];
    assert finance == ("finance", "Finance");
    UpperFinance();
    KeyIsNamed(5);
    CategoryLabelsDistinct();
    TableKeysStartLowerCase("FINANCE");
    SubcategoryLabelLikeKey(SubcategoryNamesBG, CategoryLabels, 5, "FINANCE", "Taxes");
    FinanceTaxes();
  }

  lemma UpperFinance()
    ensures ToLower("FINANCE") == ToLower("Finance")
  {
  }

  lemma FinanceTaxes()
    ensures TranslateSubcategoryToBG("finance", "Taxes") == "Данъци"
  {
    var table := SubcategoryNamesBG["finance"];
    assert table["Taxes"] == "Данъци";
  }
}
