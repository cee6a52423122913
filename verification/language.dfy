/** The application's translation table, the stored language preference,
    and `t` as the pages call it. */
module Language {
  import opened Model
  import opened Text
  import opened I18n

  /** The two languages the application ships, transcribed from its table.
      Long phrases are written as concatenations of short literals; the
      text is the same. */
  function ThNav(): Node {
    Table([
      ("vote", Phrase("โหวต")),
      ("results", Phrase("ผลการโ" + "หวต")),
      ("import", Phrase("Import" + " รายชื" + "่อ"))
    ])
  }

  function ThVoting(): Node {
    Table([
      ("title", Phrase("โหวต M" + "VP")),
      ("description", Phrase("ระบบโห" + "วต MVP" + " ของ B" + "enefit" + "-One\n\n" + "คำแนะน" + "ำในการ" + "โหวต:\n" + "• คุณส" + "ามารถแ" + "จกคะแน" + "นได้สู" + "งสุด 1" + "00 คะแ" + "นนต่อค" + "น\n• คะ" + "แนนจะถ" + "ูกแจกใ" + "ห้กับส" + "มาชิกท" + "ี่คุณต" + "้องการ" + "โหวต\n•" + " คุณสา" + "มารถให" + "้คะแนน" + "หลายคน" + "ได้ แต" + "่รวมกั" + "นต้องไ" + "ม่เกิน" + " 100 ค" + "ะแนน\n•" + " คะแนน" + "ที่ให้" + "จะสะท้" + "อนถึงค" + "วามเห็" + "นของคุ" + "ณต่อกา" + "รเป็น " + "MVP\n\nก" + "รุณาใช" + "้วิจาร" + "ณญาณใน" + "การให้" + "คะแนนอ" + "ย่างเป" + "็นธรรม")),
      ("showInstructions", Phrase("แสดงคำ" + "แนะนำ")),
      ("voterName", Phrase("ชื่อผู" + "้โหวต")),
      ("voterNamePlaceholder", Phrase("กรอกชื" + "่อของค" + "ุณ")),
      ("distributePoints", Phrase("แจกคะแ" + "นน (สู" + "งสุด 1" + "00 คะแ" + "นน)")),
      ("pointsUsed", Phrase("คะแนนท" + "ี่ใช้")),
      ("remaining", Phrase("เหลือ")),
      ("points", Phrase("คะแนน")),
      ("submit", Phrase("ส่งการ" + "โหวต")),
      ("success", Phrase("บันทึก" + "การโหว" + "ตสำเร็" + "จแล้ว!")),
      ("noMembers", Phrase("ยังไม่" + "มีรายช" + "ื่อสมา" + "ชิก")),
      ("goToImport", Phrase("ไปที่ห" + "น้า Im" + "port ร" + "ายชื่อ" + " →")),
      ("alertVoterName", Phrase("กรุณาก" + "รอกชื่" + "อผู้โห" + "วต")),
      ("alertNoScore", Phrase("กรุณาใ" + "ห้คะแน" + "นอย่าง" + "น้อย 1" + " คน"))
    ])
  }

  function ThResults(): Node {
    Table([
      ("title", Phrase("Leader" + "ship B" + "oard")),
      ("subtitle", Phrase("ผลการโ" + "หวต MV" + "P ประจ" + "ำปี")),
      ("totalVoters", Phrase("จำนวนผ" + "ู้โหวต" + "ทั้งหม" + "ด")),
      ("people", Phrase("คน")),
      ("congratulations", Phrase("ยินดีด" + "้วยกับ" + "ผู้ชนะ" + "!")),
      ("winnerMessage", Phrase("ผู้ที่" + "ได้รับ" + "คะแนนส" + "ูงสุดจ" + "ะได้รั" + "บรางวั" + "ล MVP")),
      ("totalScore", Phrase("คะแนนร" + "วม")),
      ("average", Phrase("เฉลี่ย")),
      ("perPerson", Phrase("คะแนน/" + "คน")),
      ("ofTotal", Phrase("ของคะแ" + "นนทั้ง" + "หมด")),
      ("refresh", Phrase("รีเฟรช" + "ผลการโ" + "หวต")),
      ("noResults", Phrase("ยังไม่" + "มีผลกา" + "รโหวต")),
      ("voteFirst", Phrase("กรุณาโ" + "หวตก่อ" + "นเพื่อ" + "ดูผลลั" + "พธ์"))
    ])
  }

  function ThImport(): Node {
    Table([
      ("title", Phrase("Import" + " รายชื" + "่อสมาช" + "ิก")),
      ("subtitle", Phrase("จัดการ" + "รายชื่" + "อสมาชิ" + "กสำหรั" + "บการโห" + "วต MVP")),
      ("addMember", Phrase("เพิ่มส" + "มาชิกใ" + "หม่")),
      ("memberName", Phrase("ชื่อสม" + "าชิก")),
      ("photo", Phrase("รูปภาพ" + " (ไม่บ" + "ังคับ)")),
      ("photoPreview", Phrase("ตัวอย่" + "างรูปภ" + "าพ")),
      ("add", Phrase("เพิ่มส" + "มาชิก")),
      ("importCSV", Phrase("Import" + " จากไฟ" + "ล์ CSV")),
      ("csvDescription", Phrase("รูปแบบ" + "ไฟล์: " + "ไฟล์ C" + "SV ที่" + "มีคอลั" + "มน์ชื่" + "อ \"nam" + "e\" หรื" + "อรายชื" + "่อทีละ" + "บรรทัด")),
      ("allMembers", Phrase("รายชื่" + "อสมาชิ" + "กทั้งห" + "มด")),
      ("people", Phrase("คน")),
      ("noMembers", Phrase("ยังไม่" + "มีรายช" + "ื่อสมา" + "ชิก")),
      ("startAdding", Phrase("เริ่มต" + "้นโดยก" + "ารเพิ่" + "มสมาชิ" + "กใหม่")),
      ("edit", Phrase("แก้ไข")),
      ("delete", Phrase("ลบ")),
      ("save", Phrase("บันทึก")),
      ("cancel", Phrase("ยกเลิก")),
      ("deleteConfirm", Phrase("คุณต้อ" + "งการลบ" + "สมาชิก" + "คนนี้ห" + "รือไม่" + "?")),
      ("importSuccess", Phrase("นำเข้า" + "สำเร็จ")),
      ("alertMemberName", Phrase("กรุณาก" + "รอกชื่" + "อสมาชิ" + "ก")),
      ("resetVotes", Phrase("รีเซ็ต" + "การโหว" + "ต")),
      ("resetVotesConfirm", Phrase("คุณต้อ" + "งการรี" + "เซ็ตกา" + "รโหวตท" + "ั้งหมด" + "หรือไม" + "่?\nการ" + "กระทำน" + "ี้ไม่ส" + "ามารถย" + "้อนกลั" + "บได้!")),
      ("resetVotesSuccess", Phrase("รีเซ็ต" + "การโหว" + "ตสำเร็" + "จแล้ว")),
      ("totalVotes", Phrase("จำนวนก" + "ารโหวต" + "ทั้งหม" + "ด"))
    ])
  }

  function ThPassword(): Node {
    Table([
      ("title", Phrase("กรุณาก" + "รอกรหั" + "สผ่าน")),
      ("description", Phrase("หน้านี" + "้ต้องก" + "ารการย" + "ืนยันต" + "ัวตน")),
      ("password", Phrase("รหัสผ่" + "าน")),
      ("passwordPlaceholder", Phrase("กรอกรห" + "ัสผ่าน")),
      ("submit", Phrase("เข้าสู" + "่ระบบ")),
      ("error", Phrase("รหัสผ่" + "านไม่ถ" + "ูกต้อง"))
    ])
  }

  function ThTable(): Node {
    Table([
      ("nav", ThNav()),
      ("voting", ThVoting()),
      ("results", ThResults()),
      ("import", ThImport()),
      ("password", ThPassword())
    ])
  }

  function EnNav(): Node {
    Table([
      ("vote", Phrase("Vote")),
      ("results", Phrase("Result" + "s")),
      ("import", Phrase("Import" + " Membe" + "rs"))
    ])
  }

  function EnVoting(): Node {
    Table([
      ("title", Phrase("Vote M" + "VP")),
      ("description", Phrase("Benefi" + "t-One " + "MVP Vo" + "ting S" + "ystem\n" + "\nVotin" + "g Inst" + "ructio" + "ns:\n• " + "You ca" + "n dist" + "ribute" + " a max" + "imum o" + "f 100 " + "points" + " per p" + "erson\n" + "• Poin" + "ts wil" + "l be d" + "istrib" + "uted t" + "o memb" + "ers yo" + "u want" + " to vo" + "te for" + "\n• You" + " can g" + "ive po" + "ints t" + "o mult" + "iple p" + "eople," + " but t" + "he tot" + "al mus" + "t not " + "exceed" + " 100 p" + "oints\n" + "• The " + "points" + " you g" + "ive wi" + "ll ref" + "lect y" + "our op" + "inion " + "on who" + " shoul" + "d be M" + "VP\n\nPl" + "ease u" + "se you" + "r judg" + "ment t" + "o give" + " point" + "s fair" + "ly")),
      ("showInstructions", Phrase("Show I" + "nstruc" + "tions")),
      ("voterName", Phrase("Voter " + "Name")),
      ("voterNamePlaceholder", Phrase("Enter " + "your n" + "ame")),
      ("distributePoints", Phrase("Distri" + "bute P" + "oints " + "(Maxim" + "um 100" + " point" + "s)")),
      ("pointsUsed", Phrase("Points" + " Used")),
      ("remaining", Phrase("Remain" + "ing")),
      ("points", Phrase("points")),
      ("submit", Phrase("Submit" + " Vote")),
      ("success", Phrase("Vote s" + "aved s" + "uccess" + "fully!")),
      ("noMembers", Phrase("No mem" + "bers a" + "vailab" + "le")),
      ("goToImport", Phrase("Go to " + "Import" + " Membe" + "rs →")),
      ("alertVoterName", Phrase("Please" + " enter" + " voter" + " name")),
      ("alertNoScore", Phrase("Please" + " give " + "points" + " to at" + " least" + " 1 per" + "son"))
    ])
  }

  function EnResults(): Node {
    Table([
      ("title", Phrase("Leader" + "ship B" + "oard")),
      ("subtitle", Phrase("MVP Vo" + "ting R" + "esults" + " for t" + "he Yea" + "r")),
      ("totalVoters", Phrase("Total " + "Voters")),
      ("people", Phrase("people")),
      ("congratulations", Phrase("Congra" + "tulati" + "ons to" + " the W" + "inners" + "!")),
      ("winnerMessage", Phrase("The pe" + "rson w" + "ith th" + "e high" + "est sc" + "ore wi" + "ll rec" + "eive t" + "he MVP" + " award")),
      ("totalScore", Phrase("Total " + "Score")),
      ("average", Phrase("Averag" + "e")),
      ("perPerson", Phrase("points" + "/perso" + "n")),
      ("ofTotal", Phrase("of Tot" + "al Sco" + "re")),
      ("refresh", Phrase("Refres" + "h Resu" + "lts")),
      ("noResults", Phrase("No vot" + "ing re" + "sults " + "yet")),
      ("voteFirst", Phrase("Please" + " vote " + "first " + "to see" + " resul" + "ts"))
    ])
  }

  function EnImport(): Node {
    Table([
      ("title", Phrase("Import" + " Membe" + "rs")),
      ("subtitle", Phrase("Manage" + " membe" + "r list" + " for M" + "VP vot" + "ing")),
      ("addMember", Phrase("Add Ne" + "w Memb" + "er")),
      ("memberName", Phrase("Member" + " Name")),
      ("photo", Phrase("Photo " + "(Optio" + "nal)")),
      ("photoPreview", Phrase("Photo " + "Previe" + "w")),
      ("add", Phrase("Add Me" + "mber")),
      ("importCSV", Phrase("Import" + " from " + "CSV Fi" + "le")),
      ("csvDescription", Phrase("File f" + "ormat:" + " CSV f" + "ile wi" + "th \"na" + "me\" co" + "lumn o" + "r one " + "name p" + "er lin" + "e")),
      ("allMembers", Phrase("All Me" + "mbers")),
      ("people", Phrase("people")),
      ("noMembers", Phrase("No mem" + "bers y" + "et")),
      ("startAdding", Phrase("Start " + "by add" + "ing a " + "new me" + "mber")),
      ("edit", Phrase("Edit")),
      ("delete", Phrase("Delete")),
      ("save", Phrase("Save")),
      ("cancel", Phrase("Cancel")),
      ("deleteConfirm", Phrase("Do you" + " want " + "to del" + "ete th" + "is mem" + "ber?")),
      ("importSuccess", Phrase("Succes" + "sfully" + " impor" + "ted")),
      ("alertMemberName", Phrase("Please" + " enter" + " membe" + "r name")),
      ("resetVotes", Phrase("Reset " + "Votes")),
      ("resetVotesConfirm", Phrase("Do you" + " want " + "to res" + "et all" + " votes" + "?\nThis" + " actio" + "n cann" + "ot be " + "undone" + "!")),
      ("resetVotesSuccess", Phrase("Votes " + "reset " + "succes" + "sfully")),
      ("totalVotes", Phrase("Total " + "Votes"))
    ])
  }

  function EnPassword(): Node {
    Table([
      ("title", Phrase("Please" + " Enter" + " Passw" + "ord")),
      ("description", Phrase("This p" + "age re" + "quires" + " authe" + "nticat" + "ion")),
      ("password", Phrase("Passwo" + "rd")),
      ("passwordPlaceholder", Phrase("Enter " + "passwo" + "rd")),
      ("submit", Phrase("Login")),
      ("error", Phrase("Incorr" + "ect pa" + "ssword"))
    ])
  }

  function EnTable(): Node {
    Table([
      ("nav", EnNav()),
      ("voting", EnVoting()),
      ("results", EnResults()),
      ("import", EnImport()),
      ("password", EnPassword())
    ])
  }

  function Translations(): Node {
    Table([
      ("th", ThTable()),
      ("en", EnTable())
    ])
  }

  /** `translations[lang]`: Thai and English have a table, nothing else. */
  lemma Languages(lang: string)
    ensures Child(Some(Translations()), lang) ==
              if lang == "th" then Some(ThTable()) else if lang == "en" then Some(EnTable()) else None
  {
  }

  /** Neither shipped table has a `config` section: not the Thai one... */
  lemma ThaiHasNoConfig()
    ensures Entry(ThTable().entries, "config").None?
  {
  }

  /** ...nor the English one. */
  lemma EnglishHasNoConfig()
    ensures Entry(EnTable().entries, "config").None?
  {
  }

  /** A table with no `config` section under the language. */
  predicate HasNoConfig(root: Node, lang: string) {
    Child(Child(Some(root), lang), "config").None?
  }

  /** So below any language, `config` is missing. */
  lemma NoConfigSection(lang: string)
    ensures HasNoConfig(Translations(), lang)
  {
    Languages(lang);
    if lang == "th" {
      ThaiHasNoConfig();
    } else if lang == "en" {
      EnglishHasNoConfig();
    }
  }

  /** A walk for a `config.` key from a table without `config` misses. */
  lemma ConfigWalkMisses(start: Option<Node>, rest: string)
    requires Child(start, "config").None?
    ensures Walk(start, Split("config." + rest, '.')) == None
  {
    var key := "config." + rest;
    assert key == "config" + ['.'] + rest;
    SplitFirst("config", rest, '.');
    var keys := Split(key, '.');
    assert keys[..0] == [] && keys[0] == "config";
    WalkMissing(start, keys, 0);
  }

  /** So in every language the walk for a `config.` key finds nothing... */
  lemma ConfigKeysUnresolved(lang: string, rest: string)
    ensures Resolve(Translations(), lang, "config." + rest).None?
  {
    NoConfigSection(lang);
    ConfigWalkMisses(Child(Some(Translations()), lang), rest);
  }

  /** ...and every `config.` key translates to itself. */
  lemma ConfigKeysUntranslated(lang: string, rest: string)
    ensures T(Translations(), lang, "config." + rest) == Phrase("config." + rest)
  {
    ConfigKeysUnresolved(lang, rest);
  }

  /** In any table without a `config` section under the language, every
      `config.` key translates to itself. */
  lemma ConfigUntranslatedIn(root: Node, lang: string, rest: string)
    requires HasNoConfig(root, lang)
    ensures T(root, lang, "config." + rest) == Phrase("config." + rest)
  {
    ConfigWalkMisses(Child(Some(root), lang), rest);
  }

  /** `localStorage.getItem('mvp-language') || 'th'`. */
  function LanguageOf(stored: Option<string>): (r: string)
    ensures Truthy(stored) ==> r == stored.value
    ensures !Truthy(stored) ==> r == "th"
  {
    if Truthy(stored) then stored.value else "th"
  }

  /** The stored language preference. */
  class Locale {
    var stored: Option<string>

    constructor(stored: Option<string>)
      ensures this.stored == stored
    {
      this.stored := stored;
    }

    /** `getLanguage()`. */
    method GetLanguage() returns (lang: string)
      ensures lang == LanguageOf(stored)
      ensures lang != ""
    {
      lang := if stored.Some? && stored.value != "" then stored.value else "th";
    }

    /** `setLanguage(lang)`: a later `getLanguage()` returns `lang`, unless
        it is empty, which reads back as Thai. */
    method SetLanguage(lang: string)
      modifies this
      ensures stored == Some(lang)
      ensures LanguageOf(stored) == if lang == "" then "th" else lang
    {
      stored := Some(lang);
    }

    /** `t(key)` over the shipped table. */
    method Translate(key: string) returns (r: Node)
      ensures r == T(Translations(), LanguageOf(stored), key)
    {
      r := Lookup(Translations(), LanguageOf(stored), key);
    }
  }
}
