/**
  The localized phrases the intent matcher and the weather and volume
  replies use: a table from phrase key to one phrase per language column,
  the list of keys the speech grammar is built from, and the lookup of a
  key for the configured speech-to-text language.
*/
module Localization {

  /** `ALL_STR`: the phrase keys, in grammar order. */
  const AllStr: seq<string> := [
    "str_weather_in",
    "str_weather_forecast",
    "str_weather_tomorrow",
    "str_weather_the_day_after_tomorrow",
    "str_weather_tonight",
    "str_weather_this_afternoon",
    "str_eye_color_purple",
    "str_eye_color_blue",
    "str_eye_color_sapphire",
    "str_eye_color_yellow",
    "str_eye_color_teal",
    "str_eye_color_teal2",
    "str_eye_color_green",
    "str_eye_color_orange",
    "str_me",
    "str_self",
    "str_volume_low",
    "str_volume_quiet",
    "str_volume_medium_low",
    "str_volume_medium",
    "str_volume_normal",
    "str_volume_regular",
    "str_volume_medium_high",
    "str_volume_high",
    "str_volume_loud",
    "str_volume_mute",
    "str_volume_nothing",
    "str_volume_silent",
    "str_volume_off",
    "str_volume_zero",
    "str_name_is",
    "str_name_is1",
    "str_name_is2",
    "str_for"
  ]

  /** `texts`: for every key, its phrase in columns en-US, it-IT, es-ES, fr-FR, de-DE, pl-PL,
      zh-CN, tr-TR, ru-RU, nt-NL and uk-UA. */
  const Texts: map<string, seq<string>> := map[
    "str_weather_in" := [" in ", " a ", " en ", " en ", " in ", " w ", " 的 ", " içinde ", " в ", " in ", " в "],
    "str_weather_forecast" := ["forecast", "previsioni", "pronóstico", "prévisions", "wettervorhersage", "prognoza", "预报", "tahmin", "прогноз", "voorspelling", "прогноз"],
    "str_weather_tomorrow" := ["tomorrow", "domani", "mañana", "demain", "morgen", "jutro", "明天", "yarın", "завтра", "morgen", "завтра"],
    "str_weather_the_day_after_tomorrow" := ["day after tomorrow", "dopodomani", "el día después de mañana", "lendemain de demain", "am tag nach morgen", "pojutrze", "后天", "yarından sonra", "послезавтра", "overmorgen", "післязавтра"],
    "str_weather_tonight" := ["tonight", "stasera", "esta noche", "ce soir", "heute abend", "dziś wieczorem", "今晚", "bu gece", "сегодня вечером", "vanavond", "сьогодні ввечері"],
    "str_weather_this_afternoon" := ["afternoon", "pomeriggio", "esta tarde", "après-midi", "heute nachmittag", "popołudniu", "下午", "bu öğleden sonra", "после полудня", "middag", "після полудня"],
    "str_eye_color_purple" := ["purple", "lilla", "violeta", "violet", "violett", "fioletowy", "紫色", "mor", "фиолетовый", "paars", "фіолетовий"],
    "str_eye_color_blue" := ["blue", "blu", "azul", "bleu", "blau", "niebieski", "蓝色", "mavi", "голубой", "blauw", "голубий"],
    "str_eye_color_sapphire" := ["sapphire", "zaffiro", "zafiro", "saphir", "saphir", "szafir", "天蓝", "safir", "синий", "saffier", "синій"],
    "str_eye_color_yellow" := ["yellow", "giallo", "amarillo", "jaune", "gelb", "żółty", "黄色", "sarı", "жёлтый", "geel", "жовтий"],
    "str_eye_color_teal" := ["teal", "verde acqua", "verde azulado", "sarcelle", "blaugrün", "morski", "浅绿", "teal", "бирюзовый", "wintertaling", "бірюзовий"],
    "str_eye_color_teal2" := ["tell", "acquamarina", "aguamarina", "acquamarina", "acquamarina", "akwamaryn", "蓝绿", "turkuaz", "аквамарин", "vertellen", "аквамариновий"],
    "str_eye_color_green" := ["green", "verde", "verde", "vert", "grün", "zielony", "绿色", "yeşil", "зелёный", "groente", "зелений"],
    "str_eye_color_orange" := ["orange", "arancio", "naranja", "orange", "orange", "pomarańczowy", "橙色", "turuncu", "оранжевый", "oranje", "оранжевий"],
    "str_me" := ["me", "me", "me", "moi", "mir", "mnie", "我", "ben", "меня", "mij", "мене"],
    "str_self" := ["self", "mi", "mía", "moi", "mein", "ja", "自己", "kendim", "себя", "zelf", "себе"],
    "str_volume_low" := ["low", "basso", "bajo", "bas", "niedrig", "niski", "低", "düşük", "низкий", "laag", "на мінімум"],
    "str_volume_quiet" := ["quiet", "poco rumoroso", "tranquilo", "silencieux", "ruhig", "cichy", "安静", "sessiz", "тихо", "rustig", "тихо"],
    "str_volume_medium_low" := ["medium low", "medio basso", "medio-bajo", "moyen-doux", "mittelschwer", "średnio niski", "中低", "orta düşük", "ниже среднего", "middel laag", "нижче середнього"],
    "str_volume_medium" := ["medium", "medio", "medio", "moyen", "mittel", "średni", "中档", "orta", "средний", "medium", "середню"],
    "str_volume_normal" := ["normal", "normale", "normal", "normal", "normal", "normalny", "正常", "normal", "нормальный", "normaal", "нормальна"],
    "str_volume_regular" := ["regular", "regolare", "regular", "régulier", "regulär", "zwyczajny", "标准", "düzenli", "обычный", "normaal", "звичайна"],
    "str_volume_medium_high" := ["medium high", "medio alto", "medio-alto", "moyen-élevé", "mittelhoch", "średno wysoki", "中高", "orta yüksek", "выше среднего", "gemiddeld hoog", "вище середнього"],
    "str_volume_high" := ["high", "alto", "alto", "élevé", "hoch", "wysoki", "高档", "yüksek", "высокий", "hoog", "висока"],
    "str_volume_loud" := ["loud", "rumoroso", "fuerte", "fort", "laut", "głośny", "高", "gürültülü", "громкий", "luidruchtig", "гучний"],
    "str_volume_mute" := ["mute", "muto", "mudo", "", "stumm", "wyciszony", "静音", "sessiz", "немой", "stom", "німий"],
    "str_volume_nothing" := ["nothing", "nessuno", "nada", "rien", "nichts", "nic", "无声", "hiçbir şey", "", "Niets", "нічого"],
    "str_volume_silent" := ["silent", "silenzioso", "silencio", "silencieux", "still", "cichy", "悄声", "sessiz", "тихий", "stil", "тихий"],
    "str_volume_off" := ["off", "spento", "apagado", "éteindre", "aus", "wyłączony", "关闭", "kapalı", "выключить", "uit", "вимкнути"],
    "str_volume_zero" := ["zero", "zero", "cero", "zéro", "null", "zero", "零", "sıfır", "ноль", "nul", "нуль"],
    "str_name_is" := [" is ", " è ", " es ", " est ", " ist ", " to ", "到", " olan ", "", " is ", ""],
    "str_name_is1" := ["'s", "sono ", "soy ", "suis ", "bin ", " się ", "的", "'nin", "", "", ""],
    "str_name_is2" := ["names", " chiamo ", " llamo ", "appelle ", "werde", "imię", "名字", "adlar", "имена", "namen", "імена"],
    "str_for" := [" for ", " per ", " para ", " pour ", " für ", " dla ", "给", " için ", "для", " voor ", " для "]
  ]

  /** The number of language columns in every row. */
  const Columns: nat := 11

  /** The column `GetText` reads for a language: the listed languages in turn, column 0 for any
      other, English included. */
  function Column(language: string): (c: nat)
    ensures c < Columns
  {
    if language == "it-IT" then 1
    else if language == "es-ES" then 2
    else if language == "fr-FR" then 3
    else if language == "de-DE" then 4
    else if language == "pl-PL" then 5
    else if language == "zh-CN" then 6
    else if language == "tr-TR" then 7
    else if language == "ru-RU" then 8
    else if language == "nt-NL" then 9
    else if language == "uk-UA" then 10
    else 0
  }

  /** The languages with a column of their own, in the order of their columns. */
  const Listed: seq<string> := ["it-IT", "es-ES", "fr-FR", "de-DE", "pl-PL", "zh-CN", "tr-TR", "ru-RU", "nt-NL", "uk-UA"]

  /** The k-th listed language reads column k + 1. */
  lemma ColumnOfListed()
    ensures forall k :: 0 <= k < |Listed| ==> Column(Listed[k]) == k + 1
  {
  }

  /** Every other language, English and the empty string included, reads column 0. */
  lemma ColumnOfOthers(language: string)
    requires language !in Listed
    ensures Column(language) == 0
  {
    assert forall k :: 0 <= k < |Listed| ==> language != Listed[k];
  }

  /** Two languages read the same column only when both read column 0 or they are the same language. */
  lemma ColumnsDistinct(a: string, b: string)
    requires Column(a) == Column(b) && Column(a) != 0
    ensures a == b
  {
  }

  /** Every row holds one phrase per column. */
  lemma RowsComplete()
    ensures forall key :: key in Texts ==> |Texts[key]| == Columns
  {
  }

  /** Every grammar key has a row. */
  lemma AllStrCovered()
    ensures forall k :: 0 <= k < |AllStr| ==> AllStr[k] in Texts
  {
  }

  /** `GetText`: the key's phrase in the language's column.  A key without a row makes the
      lookup fail in the source, so a row is required. */
  function GetText(language: string, key: string): (r: string)
    requires key in Texts
    ensures r == Texts[key][Column(language)]
  {
    RowsComplete();
    var data := Texts[key];
    if language == "it-IT" then data[1]
    else if language == "es-ES" then data[2]
    else if language == "fr-FR" then data[3]
    else if language == "de-DE" then data[4]
    else if language == "pl-PL" then data[5]
    else if language == "zh-CN" then data[6]
    else if language == "tr-TR" then data[7]
    else if language == "ru-RU" then data[8]
    else if language == "nt-NL" then data[9]
    else if language == "uk-UA" then data[10]
    else data[0]
  }
}
