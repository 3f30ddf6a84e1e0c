/**
  The translated texts of the bot: five locale tables with the same twelve
  keys, and `get_text`, which falls back to the Greek table for a missing or
  unknown language code and to the key itself for a missing key.
*/
module Locales {
  import opened Wrappers

  /** The locales of the table. */
  datatype Locale = GR | EN | ES | RU | JA

  /** The code a locale is stored under. */
  function Code(l: Locale): string
  {
    match l
    case GR => "GR"
    case EN => "EN"
    case ES => "ES"
    case RU => "RU"
    case JA => "JA"
  }

  /** The locale stored under a code, if any. */
  function LocaleOf(code: string): (r: Option<Locale>)
    ensures r.Some? ==> Code(r.value) == code
  {
    if code == "GR" then Some(GR)
    else if code == "EN" then Some(EN)
    else if code == "ES" then Some(ES)
    else if code == "RU" then Some(RU)
    else if code == "JA" then Some(JA)
    else None
  }

  /** Every locale is found under its own code, and no other code names it. */
  lemma CodeRoundTrip(l: Locale, code: string)
    ensures LocaleOf(Code(l)) == Some(l)
    ensures LocaleOf(code) == Some(l) ==> code == Code(l)
  {
  }

  /** The locale used when the code is missing or unknown. */
  const DefaultLocale: Locale := GR

  /** The twelve keys every locale defines. */
  datatype Key =
    | Welcome
    | RoadmapDesc
    | WhitepaperDesc
    | WebsiteDesc
    | VerifyBtn
    | VerifiedMsg
    | LangSelected
    | VerificationTitle
    | VerificationDesc
    | AlreadyVerified
    | RoleCreated
    | RoleError

  /** The string a key is looked up by. */
  function KeyName(k: Key): string
  {
    match k
    case Welcome => "welcome"
    case RoadmapDesc => "roadmap_desc"
    case WhitepaperDesc => "whitepaper_desc"
    case WebsiteDesc => "website_desc"
    case VerifyBtn => "verify_btn"
    case VerifiedMsg => "verified_msg"
    case LangSelected => "lang_selected"
    case VerificationTitle => "verification_title"
    case VerificationDesc => "verification_desc"
    case AlreadyVerified => "already_verified"
    case RoleCreated => "role_created"
    case RoleError => "role_error"
  }

  /** The key named by a string, if any. */
  function KeyOf(key: string): (r: Option<Key>)
    ensures r.Some? ==> KeyName(r.value) == key
  {
    if key == "welcome" then Some(Welcome)
    else if key == "roadmap_desc" then Some(RoadmapDesc)
    else if key == "whitepaper_desc" then Some(WhitepaperDesc)
    else if key == "website_desc" then Some(WebsiteDesc)
    else if key == "verify_btn" then Some(VerifyBtn)
    else if key == "verified_msg" then Some(VerifiedMsg)
    else if key == "lang_selected" then Some(LangSelected)
    else if key == "verification_title" then Some(VerificationTitle)
    else if key == "verification_desc" then Some(VerificationDesc)
    else if key == "already_verified" then Some(AlreadyVerified)
    else if key == "role_created" then Some(RoleCreated)
    else if key == "role_error" then Some(RoleError)
    else None
  }

  /** Every key is found under its own name. */
  lemma KeyRoundTrip(k: Key)
    ensures KeyOf(KeyName(k)) == Some(k)
  {
  }

  /** The GR table. */
  function GrText(k: Key): string
  {
    match k
    case Welcome => "Καλώς ήρθατε στο Thronos Chain!"
    case RoadmapDesc => "Εδώ είναι ο οδικός χάρτης του Thronos."
    case WhitepaperDesc => "Εδώ είναι η λευκή βίβλος του Thronos."
    case WebsiteDesc => "Επισκεφθείτε την ιστοσελίδα μας:"
    case VerifyBtn => "Επαλήθευση"
    case VerifiedMsg => "Επαληθευτήκατε επιτυχώς! Καλώς ήρθατε Thronidian."
    case LangSelected => "Η γλώσσα ορίστηκε σε: Ελληνικά"
    case VerificationTitle => "Επαλήθευση / Verification"
    case VerificationDesc => "Κάντε κλικ στο παρακάτω κουμπί για να επαληθευτείτε και να αποκτήσετε πρόσβαση στον διακομιστή.\nClick the button below to verify yourself and gain access to the server."
    case AlreadyVerified => "Είστε ήδη επαληθευμένοι!"
    case RoleCreated => "Ο ρόλος 'Thronidian' δημιουργήθηκε."
    case RoleError => "Αποτυχία ανάθεσης ρόλου."
  }

  /** The EN table. */
  function EnText(k: Key): string
  {
    match k
    case Welcome => "Welcome to Thronos Chain!"
    case RoadmapDesc => "Here is the Thronos Roadmap."
    case WhitepaperDesc => "Here is the Thronos Whitepaper."
    case WebsiteDesc => "Visit our website:"
    case VerifyBtn => "Verify"
    case VerifiedMsg => "Successfully verified! Welcome Thronidian."
    case LangSelected => "Language set to: English"
    case VerificationTitle => "Verification / Επαλήθευση"
    case VerificationDesc => "Click the button below to verify yourself and gain access to the server.\nΚάντε κλικ στο παρακάτω κουμπί για να επαληθευτείτε και να αποκτήσετε πρόσβαση στον διακομιστή."
    case AlreadyVerified => "You are already verified!"
    case RoleCreated => "Role 'Thronidian' created successfully."
    case RoleError => "Failed to assign role."
  }

  /** The ES table. */
  function EsText(k: Key): string
  {
    match k
    case Welcome => "¡Bienvenido a Thronos Chain!"
    case RoadmapDesc => "Aquí está la hoja de ruta de Thronos."
    case WhitepaperDesc => "Aquí está el libro blanco de Thronos."
    case WebsiteDesc => "Visita nuestro sitio web:"
    case VerifyBtn => "Verificar"
    case VerifiedMsg => "¡Verificado con éxito! Bienvenido Thronidian."
    case LangSelected => "Idioma establecido en: Español"
    case VerificationTitle => "Verificación / Verification"
    case VerificationDesc => "Haga clic en el botón de abajo para verificarse y obtener acceso al servidor.\nClick the button below to verify yourself and gain access to the server."
    case AlreadyVerified => "¡Ya estás verificado!"
    case RoleCreated => "Rol 'Thronidian' creado exitosamente."
    case RoleError => "Error al asignar rol."
  }

  /** The RU table. */
  function RuText(k: Key): string
  {
    match k
    case Welcome => "Добро пожаловать в Thronos Chain!"
    case RoadmapDesc => "Вот дорожная карта Thronos."
    case WhitepaperDesc => "Вот белая книга Thronos."
    case WebsiteDesc => "Посетите наш сайт:"
    case VerifyBtn => "Подтвердить"
    case VerifiedMsg => "Успешно проверено! Добро пожаловать, Thronidian."
    case LangSelected => "Язык установлен на: Русский"
    case VerificationTitle => "Проверка / Verification"
    case VerificationDesc => "Нажмите кнопку ниже, чтобы пройти проверку и получить доступ к серверу.\nClick the button below to verify yourself and gain access to the server."
    case AlreadyVerified => "Вы уже проверены!"
    case RoleCreated => "Роль 'Thronidian' успешно создана."
    case RoleError => "Не удалось назначить роль."
  }

  /** The JA table. */
  function JaText(k: Key): string
  {
    match k
    case Welcome => "Thronos Chainへようこそ！"
    case RoadmapDesc => "これがThronosのロードマップです。"
    case WhitepaperDesc => "これがThronosのホワイトペーパーです。"
    case WebsiteDesc => "ウェブサイトをご覧ください："
    case VerifyBtn => "確認"
    case VerifiedMsg => "確認が完了しました！Thronidianへようこそ。"
    case LangSelected => "言語が設定されました：日本語"
    case VerificationTitle => "認証 / Verification"
    case VerificationDesc => "サーバーへのアクセス権を取得するには、下のボタンをクリックしてください。\nClick the button below to verify yourself and gain access to the server."
    case AlreadyVerified => "既に認証されています！"
    case RoleCreated => "ロール 'Thronidian' が作成されました。"
    case RoleError => "ロールの割り当てに失敗しました。"
  }

  /**
    The table: every locale gives a text for each of the twelve keys, so the
    five locales define the same keys by construction.
  */
  function Text(l: Locale, k: Key): string
  {
    match l
    case GR => GrText(k)
    case EN => EnText(k)
    case ES => EsText(k)
    case RU => RuText(k)
    case JA => JaText(k)
  }

  /** The locale `get_text` reads: the one named by the code, or the default
      when the code is missing, empty or not a locale. */
  function ChosenLocale(code: Option<string>): (l: Locale)
    ensures code.Some? && LocaleOf(code.value).Some? ==> l == LocaleOf(code.value).value
    ensures code.None? || LocaleOf(code.value).None? ==> l == DefaultLocale
  {
    if code.None? || code.value == "" || LocaleOf(code.value).None? then DefaultLocale
    else LocaleOf(code.value).value
  }

  /** `get_text(key, lang_code)`: the chosen locale's text for the key, or the
      key itself when it is not one of the twelve. Defined for every key and
      code. */
  function GetText(key: string, code: Option<string>): (s: string)
    ensures KeyOf(key).Some? ==> s == Text(ChosenLocale(code), KeyOf(key).value)
    ensures KeyOf(key).None? ==> s == key
  {
    match KeyOf(key)
    case Some(k) => Text(ChosenLocale(code), k)
    case None => key
  }

  /** A missing or unknown code reads the same texts as "GR". */
  lemma FallsBackToDefault(key: string, code: Option<string>)
    requires code.None? || LocaleOf(code.value).None?
    ensures GetText(key, code) == GetText(key, Some("GR"))
  {
    assert LocaleOf("GR") == Some(GR);
  }

  /** A string that names no key comes back unchanged, whatever the code. */
  lemma UnknownKeyIsEchoed(key: string, code: Option<string>)
    requires forall k: Key :: KeyName(k) != key
    ensures GetText(key, code) == key
  {
  }

  /** A key looked up by its name under a locale's own code is that locale's text. */
  lemma KnownKeyTranslated(k: Key, l: Locale)
    ensures GetText(KeyName(k), Some(Code(l))) == Text(l, k)
  {
    KeyRoundTrip(k);
    CodeRoundTrip(l, Code(l));
  }
}
