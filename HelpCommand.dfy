/**
  The help cog: `/help` answers with the command list in the language of the
  caller's first language role, English by default.
*/
module HelpCommand {
  import opened Wrappers
  import opened PyText
  import opened Chat

  /** The help language a role name selects, if it is a language role. */
  function LangRoleCode(name: string): Option<string>
  {
    if name == "English" then Some("EN")
    else if name == "Greek" then Some("EL")
    else if name == "Spanish" then Some("ES")
    else if name == "Russian" then Some("RU")
    else if name == "Japanese" then Some("JA")
    else None
  }

  /** The languages the help text is written in. */
  predicate IsHelpCode(code: string)
  {
    code == "EN" || code == "EL" || code == "ES" || code == "RU" || code == "JA"
  }

  /**
    `CustomHelp.get_user_lang`: the language of the first role, in the
    user's role order, that is a language role; English when none is.
  */
  function HelpLang(roles: seq<string>): (code: string)
    ensures IsHelpCode(code)
    ensures (forall i :: 0 <= i < |roles| ==> LangRoleCode(roles[i]).None?) ==> code == "EN"
    decreases |roles|
  {
    if |roles| == 0 then "EN"
    else if LangRoleCode(roles[0]).Some? then LangRoleCode(roles[0]).value
    else
      assert forall i :: 1 <= i < |roles| ==> roles[1..][i - 1] == roles[i];
      HelpLang(roles[1..])
  }

  /** The first language role wins, whatever roles come after it. */
  lemma {:induction false} FirstLanguageRoleWins(roles: seq<string>, i: nat)
    requires i < |roles| && LangRoleCode(roles[i]).Some?
    requires forall j :: 0 <= j < i ==> LangRoleCode(roles[j]).None?
    ensures HelpLang(roles) == LangRoleCode(roles[i]).value
    decreases i
  {
    if i > 0 {
      FirstLanguageRoleWins(roles[1..], i - 1);
    }
  }

  /** The texts of one language of the help message. */
  datatype HelpText = HelpText(title: string, description: string, setup: string, stats: string,
                               help: string, lang: string, verify: string, footer: string)

  /** The languages of `help_data`. */
  datatype HelpLanguage = English | Greek | Spanish | Russian | Japanese

  /** The key of a language in `help_data`. */
  function HelpCode(l: HelpLanguage): string
  {
    match l
    case English => "EN"
    case Greek => "EL"
    case Spanish => "ES"
    case Russian => "RU"
    case Japanese => "JA"
  }

  /** The language a key of `help_data` names, if any. */
  function HelpLanguageOf(code: string): (l: Option<HelpLanguage>)
    ensures l.Some? ==> HelpCode(l.value) == code
    ensures l.None? <==> !IsHelpCode(code)
  {
    if code == "EN" then Some(English)
    else if code == "EL" then Some(Greek)
    else if code == "ES" then Some(Spanish)
    else if code == "RU" then Some(Russian)
    else if code == "JA" then Some(Japanese)
    else None
  }

  /** The entry of `help_data` for one language. */
  function TextsOf(l: HelpLanguage): HelpText
  {
    match l
    case English => HelpText(
      "🤖 Thronos Bot Commands",
      "Here are all available commands:",
      "**!setup_server** - Auto-configure server channels and content (Admin only)",
      "**!stats** - Show real-time network statistics",
      "**!help [command]** - Show this help message",
      "**!language** - Select your preferred language",
      "Click the Verify button to access channels",
      "For support, contact an administrator")
    case Greek => HelpText(
      "🤖 Εντολές Thronos Bot",
      "Εδώ είναι όλες οι διαθέσιμες εντολές:",
      "**!setup_server** - Αυτόματη διαμόρφωση καναλιών διακομιστή (Μόνο Admin)",
      "**!stats** - Εμφάνιση στατιστικών δικτύου σε πραγματικό χρόνο",
      "**!help [εντολή]** - Εμφάνιση αυτού του μηνύματος βοηθείας",
      "**!language** - Επιλέξτε την προτιμώμενη γλώσσα σας",
      "Κάντε κλικ στο κουμπί Επαλήθευση για πρόσβαση στα κανάλια",
      "Για υποστήριξη, επικοινωνήστε με έναν διαχειριστή")
    case Spanish => HelpText(
      "🤖 Comandos de Thronos Bot",
      "Aquí están todos los comandos disponibles:",
      "**!setup_server** - Configurar automáticamente canales del servidor (Solo Admin)",
      "**!stats** - Mostrar estadísticas de red en tiempo real",
      "**!help [comando]** - Mostrar este mensaje de ayuda",
      "**!language** - Seleccionar su idioma preferido",
      "Haga clic en el botón Verificar para acceder a los canales",
      "Para soporte, contacte a un administrador")
    case Russian => HelpText(
      "🤖 Команды Thronos Bot",
      "Вот все доступные команды:",
      "**!setup_server** - Автоматическая настройка каналов сервера (Только Admin)",
      "**!stats** - Показать статистику сети в реальном времени",
      "**!help [команда]** - Показать это справочное сообщение",
      "**!language** - Выбрать предпочитаемый язык",
      "Нажмите кнопку Проверить для доступа к каналам",
      "Для поддержки свяжитесь с администратором")
    case Japanese => HelpText(
      "🤖 Thronos Bot コマンド",
      "利用可能なコマンド一覧:",
      "**!setup_server** - サーバーチャンネルの自動設定 (管理者のみ)",
      "**!stats** - リアルタイムネットワーク統計を表示",
      "**!help [コマンド]** - このヘルプメッセージを表示",
      "**!language** - 優先言語を選択",
      "確認ボタンをクリックしてチャンネルにアクセス",
      "サポートについては管理者にお問い合わせください")
  }

  /** `help_data[code]`, when the code is one of its keys. */
  function HelpTexts(code: string): Option<HelpText>
  {
    match HelpLanguageOf(code)
    case Some(l) => Some(TextsOf(l))
    case None => None
  }

  /** Every help language has its texts. */
  lemma HelpTextsDefined(code: string)
    requires IsHelpCode(code)
    ensures HelpTexts(code).Some?
  {
    assert HelpLanguageOf(code).Some?;
  }

  /** `help_data.get(lang, help_data["EN"])`. */
  function HelpFor(code: string): (t: HelpText)
    ensures HelpTexts(code).Some? ==> Some(t) == HelpTexts(code)
    ensures HelpTexts(code).None? ==> t == TextsOf(English)
  {
    match HelpLanguageOf(code)
    case Some(l) => TextsOf(l)
    case None => TextsOf(English)
  }

  /** The fallback of the lookup is the entry stored under "EN". */
  lemma FallbackIsEnglish(code: string)
    ensures HelpTexts(code).None? ==> Some(HelpFor(code)) == HelpTexts("EN")
  {
    assert HelpLanguageOf("EN") == Some(English);
  }

  /** The language chosen from the roles always has help texts, so the
      English fallback of the lookup is never taken. */
  lemma HelpLangHasTexts(roles: seq<string>)
    ensures HelpTexts(HelpLang(roles)).Some?
    ensures Some(HelpFor(HelpLang(roles))) == HelpTexts(HelpLang(roles))
  {
    HelpTextsDefined(HelpLang(roles));
  }

  /** The commands field: the five command lines, one per line, in order. */
  function CommandsValue(t: HelpText): string
  {
    Join("\n", [t.setup, t.stats, t.help, t.lang, t.verify])
  }

  /** The commands field splits back into setup, stats, help, language and
      verify, in that order, when none of them holds a newline. */
  lemma CommandsListedInOrder(t: HelpText)
    requires '\n' !in t.setup && '\n' !in t.stats && '\n' !in t.help && '\n' !in t.lang && '\n' !in t.verify
    ensures Split(CommandsValue(t), '\n') == [t.setup, t.stats, t.help, t.lang, t.verify]
  {
    SplitJoin([t.setup, t.stats, t.help, t.lang, t.verify], '\n');
  }

  /** `/help`: the embed in the caller's language. The optional command
      argument is accepted and not used. */
  function HelpReply(roles: seq<string>): (e: Embed)
    ensures var t := HelpFor(HelpLang(roles));
      && e.title == t.title && e.description == t.description && e.footer == t.footer
      && |e.fields| == 1 && e.fields[0].name == "📋 Commands / Εντολές / Comandos"
      && e.fields[0].value == CommandsValue(t)
  {
    var t := HelpFor(HelpLang(roles));
    Embed(t.title, t.description, [Field("📋 Commands / Εντολές / Comandos", CommandsValue(t))], t.footer)
  }
}
