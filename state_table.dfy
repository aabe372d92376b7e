/**
 * `state_abbreviations`, lines 214-224 of app.py: the fixed dict from the 50 state names
 * to their postal abbreviations.
 */
module StateTable {
  import opened Sequences

  /** Entry `i` of `state_abbreviations`, in the order the table lists them. */
  function Entry(i: nat): (string, string)
    requires i < 50
  {
    match i
    case 0 => ("Alabama", "AL")
    case 1 => ("Alaska", "AK")
    case 2 => ("Arizona", "AZ")
    case 3 => ("Arkansas", "AR")
    case 4 => ("California", "CA")
    case 5 => ("Colorado", "CO")
    case 6 => ("Connecticut", "CT")
    case 7 => ("Delaware", "DE")
    case 8 => ("Florida", "FL")
    case 9 => ("Georgia", "GA")
    case 10 => ("Hawaii", "HI")
    case 11 => ("Idaho", "ID")
    case 12 => ("Illinois", "IL")
    case 13 => ("Indiana", "IN")
    case 14 => ("Iowa", "IA")
    case 15 => ("Kansas", "KS")
    case 16 => ("Kentucky", "KY")
    case 17 => ("Louisiana", "LA")
    case 18 => ("Maine", "ME")
    case 19 => ("Maryland", "MD")
    case 20 => ("Massachusetts", "MA")
    case 21 => ("Michigan", "MI")
    case 22 => ("Minnesota", "MN")
    case 23 => ("Mississippi", "MS")
    case 24 => ("Missouri", "MO")
    case 25 => ("Montana", "MT")
    case 26 => ("Nebraska", "NE")
    case 27 => ("Nevada", "NV")
    case 28 => ("New Hampshire", "NH")
    case 29 => ("New Jersey", "NJ")
    case 30 => ("New Mexico", "NM")
    case 31 => ("New York", "NY")
    case 32 => ("North Carolina", "NC")
    case 33 => ("North Dakota", "ND")
    case 34 => ("Ohio", "OH")
    case 35 => ("Oklahoma", "OK")
    case 36 => ("Oregon", "OR")
    case 37 => ("Pennsylvania", "PA")
    case 38 => ("Rhode Island", "RI")
    case 39 => ("South Carolina", "SC")
    case 40 => ("South Dakota", "SD")
    case 41 => ("Tennessee", "TN")
    case 42 => ("Texas", "TX")
    case 43 => ("Utah", "UT")
    case 44 => ("Vermont", "VT")
    case 45 => ("Virginia", "VA")
    case 46 => ("Washington", "WA")
    case 47 => ("West Virginia", "WV")
    case 48 => ("Wisconsin", "WI")
    case 49 => ("Wyoming", "WY")
    case _ => ("", "")
  }

  /** The table's state names, in table order. */
  function Names(): (names: seq<string>)
    ensures |names| == 50
    ensures forall i :: 0 <= i < 50 ==> names[i] == Entry(i).0
  {
    seq(50, i requires 0 <= i < 50 => Entry(i).0)
  }

  /** The table's abbreviations, in table order. */
  function Abbreviations(): (abbreviations: seq<string>)
    ensures |abbreviations| == 50
    ensures forall i :: 0 <= i < 50 ==> abbreviations[i] == Entry(i).1
  {
    seq(50, i requires 0 <= i < 50 => Entry(i).1)
  }

  // Distinctness of the table's 50 names and 50 abbreviations is shown through small
  // integer codes: a code function on strings, and a decoder that maps the code of
  // entry `i` back to `i`. Two entries with equal strings have equal codes, hence equal indices.
  // The constants in `NameIndex` and `AbbreviationIndex` are `Signature` and `Code` evaluated on
  // each entry of the table (character codes in base 256). They are not trusted: lemma
  // `NameSignature<i>` (and `AbbreviationCode<i>`) asserts that the code of entry `i` is the
  // constant on the decoder's `i`-th branch, so a wrong constant fails verification. One small
  // lemma per entry keeps each proof a single evaluation of concrete strings.

  /** Length, first two and last character of a name: enough to tell the 50 names apart. */
  function Signature(name: string): int {
    if |name| >= 2 then ((|name| * 256 + name[0] as int) * 256 + name[1] as int) * 256 + name[|name| - 1] as int
    else 0
  }

  /** The two letters of an abbreviation as one number. */
  function Code(abbreviation: string): int {
    if |abbreviation| == 2 then (abbreviation[0] as int) * 256 + abbreviation[1] as int else 0
  }

  function NameIndex(signature: int): int {
    if signature == 121728097 then 0
    else if signature == 104950881 then 1
    else if signature == 121729633 then 2
    else if signature == 138506867 then 3
    else if signature == 172188001 then 4
    else if signature == 138637167 then 5
    else if signature == 188968820 then 6
    else if signature == 138700133 then 7
    else if signature == 122055777 then 8
    else if signature == 122119521 then 9
    else if signature == 105406825 then 10
    else if signature == 88695919 then 11
    else if signature == 139029619 then 12
    else if signature == 122252897 then 13
    else if signature == 71921505 then 14
    else if signature == 105603443 then 15
    else if signature == 139158905 then 16
    else if signature == 156004193 then 17
    else if signature == 88957285 then 18
    else if signature == 139288932 then 19
    else if signature == 223175027 then 20
    else if signature == 139290990 then 21
    else if signature == 156068193 then 22
    else if signature == 189622633 then 23
    else if signature == 139290985 then 24
    else if signature == 122515297 then 25
    else if signature == 139355489 then 26
    else if signature == 105801057 then 27
    else if signature == 223241573 then 28
    else if signature == 172909945 then 29
    else if signature == 172909935 then 30
    else if signature == 139355499 then 31
    else if signature == 240021345 then 32
    else if signature == 206466913 then 33
    else if signature == 72312943 then 34
    else if signature == 139422561 then 35
    else if signature == 105869934 then 36
    else if signature == 206595425 then 37
    else if signature == 206727268 then 38
    else if signature == 240349025 then 39
    else if signature == 206794593 then 40
    else if signature == 156525925 then 41
    else if signature == 89417075 then 42
    else if signature == 72709224 then 43
    else if signature == 123102580 then 44
    else if signature == 139880801 then 45
    else if signature == 173498734 then 46
    else if signature == 223831393 then 47
    else if signature == 156723566 then 48
    else if signature == 123173223 then 49
    else -1
  }

  function AbbreviationIndex(code: int): int {
    if code == 16716 then 0
    else if code == 16715 then 1
    else if code == 16730 then 2
    else if code == 16722 then 3
    else if code == 17217 then 4
    else if code == 17231 then 5
    else if code == 17236 then 6
    else if code == 17477 then 7
    else if code == 17996 then 8
    else if code == 18241 then 9
    else if code == 18505 then 10
    else if code == 18756 then 11
    else if code == 18764 then 12
    else if code == 18766 then 13
    else if code == 18753 then 14
    else if code == 19283 then 15
    else if code == 19289 then 16
    else if code == 19521 then 17
    else if code == 19781 then 18
    else if code == 19780 then 19
    else if code == 19777 then 20
    else if code == 19785 then 21
    else if code == 19790 then 22
    else if code == 19795 then 23
    else if code == 19791 then 24
    else if code == 19796 then 25
    else if code == 20037 then 26
    else if code == 20054 then 27
    else if code == 20040 then 28
    else if code == 20042 then 29
    else if code == 20045 then 30
    else if code == 20057 then 31
    else if code == 20035 then 32
    else if code == 20036 then 33
    else if code == 20296 then 34
    else if code == 20299 then 35
    else if code == 20306 then 36
    else if code == 20545 then 37
    else if code == 21065 then 38
    else if code == 21315 then 39
    else if code == 21316 then 40
    else if code == 21582 then 41
    else if code == 21592 then 42
    else if code == 21844 then 43
    else if code == 22100 then 44
    else if code == 22081 then 45
    else if code == 22337 then 46
    else if code == 22358 then 47
    else if code == 22345 then 48
    else if code == 22361 then 49
    else -1
  }

  lemma NameSignature0()
    ensures NameIndex(Signature(Entry(0).0)) == 0
  {
    assert Signature(Entry(0).0) == 121728097;
  }

  lemma NameSignature1()
    ensures NameIndex(Signature(Entry(1).0)) == 1
  {
    assert Signature(Entry(1).0) == 104950881;
  }

  lemma NameSignature2()
    ensures NameIndex(Signature(Entry(2).0)) == 2
  {
    assert Signature(Entry(2).0) == 121729633;
  }

  lemma NameSignature3()
    ensures NameIndex(Signature(Entry(3).0)) == 3
  {
    assert Signature(Entry(3).0) == 138506867;
  }

  lemma NameSignature4()
    ensures NameIndex(Signature(Entry(4).0)) == 4
  {
    assert Signature(Entry(4).0) == 172188001;
  }

  lemma NameSignature5()
    ensures NameIndex(Signature(Entry(5).0)) == 5
  {
    assert Signature(Entry(5).0) == 138637167;
  }

  lemma NameSignature6()
    ensures NameIndex(Signature(Entry(6).0)) == 6
  {
    assert Signature(Entry(6).0) == 188968820;
  }

  lemma NameSignature7()
    ensures NameIndex(Signature(Entry(7).0)) == 7
  {
    assert Signature(Entry(7).0) == 138700133;
  }

  lemma NameSignature8()
    ensures NameIndex(Signature(Entry(8).0)) == 8
  {
    assert Signature(Entry(8).0) == 122055777;
  }

  lemma NameSignature9()
    ensures NameIndex(Signature(Entry(9).0)) == 9
  {
    assert Signature(Entry(9).0) == 122119521;
  }

  lemma NameSignature10()
    ensures NameIndex(Signature(Entry(10).0)) == 10
  {
    assert Signature(Entry(10).0) == 105406825;
  }

  lemma NameSignature11()
    ensures NameIndex(Signature(Entry(11).0)) == 11
  {
    assert Signature(Entry(11).0) == 88695919;
  }

  lemma NameSignature12()
    ensures NameIndex(Signature(Entry(12).0)) == 12
  {
    assert Signature(Entry(12).0) == 139029619;
  }

  lemma NameSignature13()
    ensures NameIndex(Signature(Entry(13).0)) == 13
  {
    assert Signature(Entry(13).0) == 122252897;
  }

  lemma NameSignature14()
    ensures NameIndex(Signature(Entry(14).0)) == 14
  {
    assert Signature(Entry(14).0) == 71921505;
  }

  lemma NameSignature15()
    ensures NameIndex(Signature(Entry(15).0)) == 15
  {
    assert Signature(Entry(15).0) == 105603443;
  }

  lemma NameSignature16()
    ensures NameIndex(Signature(Entry(16).0)) == 16
  {
    assert Signature(Entry(16).0) == 139158905;
  }

  lemma NameSignature17()
    ensures NameIndex(Signature(Entry(17).0)) == 17
  {
    assert Signature(Entry(17).0) == 156004193;
  }

  lemma NameSignature18()
    ensures NameIndex(Signature(Entry(18).0)) == 18
  {
    assert Signature(Entry(18).0) == 88957285;
  }

  lemma NameSignature19()
    ensures NameIndex(Signature(Entry(19).0)) == 19
  {
    assert Signature(Entry(19).0) == 139288932;
  }

  lemma NameSignature20()
    ensures NameIndex(Signature(Entry(20).0)) == 20
  {
    assert Signature(Entry(20).0) == 223175027;
  }

  lemma NameSignature21()
    ensures NameIndex(Signature(Entry(21).0)) == 21
  {
    assert Signature(Entry(21).0) == 139290990;
  }

  lemma NameSignature22()
    ensures NameIndex(Signature(Entry(22).0)) == 22
  {
    assert Signature(Entry(22).0) == 156068193;
  }

  lemma NameSignature23()
    ensures NameIndex(Signature(Entry(23).0)) == 23
  {
    assert Signature(Entry(23).0) == 189622633;
  }

  lemma NameSignature24()
    ensures NameIndex(Signature(Entry(24).0)) == 24
  {
    assert Signature(Entry(24).0) == 139290985;
  }

  lemma NameSignature25()
    ensures NameIndex(Signature(Entry(25).0)) == 25
  {
    assert Signature(Entry(25).0) == 122515297;
  }

  lemma NameSignature26()
    ensures NameIndex(Signature(Entry(26).0)) == 26
  {
    assert Signature(Entry(26).0) == 139355489;
  }

  lemma NameSignature27()
    ensures NameIndex(Signature(Entry(27).0)) == 27
  {
    assert Signature(Entry(27).0) == 105801057;
  }

  lemma NameSignature28()
    ensures NameIndex(Signature(Entry(28).0)) == 28
  {
    assert Signature(Entry(28).0) == 223241573;
  }

  lemma NameSignature29()
    ensures NameIndex(Signature(Entry(29).0)) == 29
  {
    assert Signature(Entry(29).0) == 172909945;
  }

  lemma NameSignature30()
    ensures NameIndex(Signature(Entry(30).0)) == 30
  {
    assert Signature(Entry(30).0) == 172909935;
  }

  lemma NameSignature31()
    ensures NameIndex(Signature(Entry(31).0)) == 31
  {
    assert Signature(Entry(31).0) == 139355499;
  }

  lemma NameSignature32()
    ensures NameIndex(Signature(Entry(32).0)) == 32
  {
    assert Signature(Entry(32).0) == 240021345;
  }

  lemma NameSignature33()
    ensures NameIndex(Signature(Entry(33).0)) == 33
  {
    assert Signature(Entry(33).0) == 206466913;
  }

  lemma NameSignature34()
    ensures NameIndex(Signature(Entry(34).0)) == 34
  {
    assert Signature(Entry(34).0) == 72312943;
  }

  lemma NameSignature35()
    ensures NameIndex(Signature(Entry(35).0)) == 35
  {
    assert Signature(Entry(35).0) == 139422561;
  }

  lemma NameSignature36()
    ensures NameIndex(Signature(Entry(36).0)) == 36
  {
    assert Signature(Entry(36).0) == 105869934;
  }

  lemma NameSignature37()
    ensures NameIndex(Signature(Entry(37).0)) == 37
  {
    assert Signature(Entry(37).0) == 206595425;
  }

  lemma NameSignature38()
    ensures NameIndex(Signature(Entry(38).0)) == 38
  {
    assert Signature(Entry(38).0) == 206727268;
  }

  lemma NameSignature39()
    ensures NameIndex(Signature(Entry(39).0)) == 39
  {
    assert Signature(Entry(39).0) == 240349025;
  }

  lemma NameSignature40()
    ensures NameIndex(Signature(Entry(40).0)) == 40
  {
    assert Signature(Entry(40).0) == 206794593;
  }

  lemma NameSignature41()
    ensures NameIndex(Signature(Entry(41).0)) == 41
  {
    assert Signature(Entry(41).0) == 156525925;
  }

  lemma NameSignature42()
    ensures NameIndex(Signature(Entry(42).0)) == 42
  {
    assert Signature(Entry(42).0) == 89417075;
  }

  lemma NameSignature43()
    ensures NameIndex(Signature(Entry(43).0)) == 43
  {
    assert Signature(Entry(43).0) == 72709224;
  }

  lemma NameSignature44()
    ensures NameIndex(Signature(Entry(44).0)) == 44
  {
    assert Signature(Entry(44).0) == 123102580;
  }

  lemma NameSignature45()
    ensures NameIndex(Signature(Entry(45).0)) == 45
  {
    assert Signature(Entry(45).0) == 139880801;
  }

  lemma NameSignature46()
    ensures NameIndex(Signature(Entry(46).0)) == 46
  {
    assert Signature(Entry(46).0) == 173498734;
  }

  lemma NameSignature47()
    ensures NameIndex(Signature(Entry(47).0)) == 47
  {
    assert Signature(Entry(47).0) == 223831393;
  }

  lemma NameSignature48()
    ensures NameIndex(Signature(Entry(48).0)) == 48
  {
    assert Signature(Entry(48).0) == 156723566;
  }

  lemma NameSignature49()
    ensures NameIndex(Signature(Entry(49).0)) == 49
  {
    assert Signature(Entry(49).0) == 123173223;
  }

  lemma NameIndexOfEntry(i: nat)
    requires i < 50
    ensures NameIndex(Signature(Entry(i).0)) == i
  {
    if i == 0 { NameSignature0(); }
    else if i == 1 { NameSignature1(); }
    else if i == 2 { NameSignature2(); }
    else if i == 3 { NameSignature3(); }
    else if i == 4 { NameSignature4(); }
    else if i == 5 { NameSignature5(); }
    else if i == 6 { NameSignature6(); }
    else if i == 7 { NameSignature7(); }
    else if i == 8 { NameSignature8(); }
    else if i == 9 { NameSignature9(); }
    else if i == 10 { NameSignature10(); }
    else if i == 11 { NameSignature11(); }
    else if i == 12 { NameSignature12(); }
    else if i == 13 { NameSignature13(); }
    else if i == 14 { NameSignature14(); }
    else if i == 15 { NameSignature15(); }
    else if i == 16 { NameSignature16(); }
    else if i == 17 { NameSignature17(); }
    else if i == 18 { NameSignature18(); }
    else if i == 19 { NameSignature19(); }
    else if i == 20 { NameSignature20(); }
    else if i == 21 { NameSignature21(); }
    else if i == 22 { NameSignature22(); }
    else if i == 23 { NameSignature23(); }
    else if i == 24 { NameSignature24(); }
    else if i == 25 { NameSignature25(); }
    else if i == 26 { NameSignature26(); }
    else if i == 27 { NameSignature27(); }
    else if i == 28 { NameSignature28(); }
    else if i == 29 { NameSignature29(); }
    else if i == 30 { NameSignature30(); }
    else if i == 31 { NameSignature31(); }
    else if i == 32 { NameSignature32(); }
    else if i == 33 { NameSignature33(); }
    else if i == 34 { NameSignature34(); }
    else if i == 35 { NameSignature35(); }
    else if i == 36 { NameSignature36(); }
    else if i == 37 { NameSignature37(); }
    else if i == 38 { NameSignature38(); }
    else if i == 39 { NameSignature39(); }
    else if i == 40 { NameSignature40(); }
    else if i == 41 { NameSignature41(); }
    else if i == 42 { NameSignature42(); }
    else if i == 43 { NameSignature43(); }
    else if i == 44 { NameSignature44(); }
    else if i == 45 { NameSignature45(); }
    else if i == 46 { NameSignature46(); }
    else if i == 47 { NameSignature47(); }
    else if i == 48 { NameSignature48(); }
    else { NameSignature49(); }
  }

  lemma AbbreviationCode0()
    ensures AbbreviationIndex(Code(Entry(0).1)) == 0
  {
    assert Code(Entry(0).1) == 16716;
  }

  lemma AbbreviationCode1()
    ensures AbbreviationIndex(Code(Entry(1).1)) == 1
  {
    assert Code(Entry(1).1) == 16715;
  }

  lemma AbbreviationCode2()
    ensures AbbreviationIndex(Code(Entry(2).1)) == 2
  {
    assert Code(Entry(2).1) == 16730;
  }

  lemma AbbreviationCode3()
    ensures AbbreviationIndex(Code(Entry(3).1)) == 3
  {
    assert Code(Entry(3).1) == 16722;
  }

  lemma AbbreviationCode4()
    ensures AbbreviationIndex(Code(Entry(4).1)) == 4
  {
    assert Code(Entry(4).1) == 17217;
  }

  lemma AbbreviationCode5()
    ensures AbbreviationIndex(Code(Entry(5).1)) == 5
  {
    assert Code(Entry(5).1) == 17231;
  }

  lemma AbbreviationCode6()
    ensures AbbreviationIndex(Code(Entry(6).1)) == 6
  {
    assert Code(Entry(6).1) == 17236;
  }

  lemma AbbreviationCode7()
    ensures AbbreviationIndex(Code(Entry(7).1)) == 7
  {
    assert Code(Entry(7).1) == 17477;
  }

  lemma AbbreviationCode8()
    ensures AbbreviationIndex(Code(Entry(8).1)) == 8
  {
    assert Code(Entry(8).1) == 17996;
  }

  lemma AbbreviationCode9()
    ensures AbbreviationIndex(Code(Entry(9).1)) == 9
  {
    assert Code(Entry(9).1) == 18241;
  }

  lemma AbbreviationCode10()
    ensures AbbreviationIndex(Code(Entry(10).1)) == 10
  {
    assert Code(Entry(10).1) == 18505;
  }

  lemma AbbreviationCode11()
    ensures AbbreviationIndex(Code(Entry(11).1)) == 11
  {
    assert Code(Entry(11).1) == 18756;
  }

  lemma AbbreviationCode12()
    ensures AbbreviationIndex(Code(Entry(12).1)) == 12
  {
    assert Code(Entry(12).1) == 18764;
  }

  lemma AbbreviationCode13()
    ensures AbbreviationIndex(Code(Entry(13).1)) == 13
  {
    assert Code(Entry(13).1) == 18766;
  }

  lemma AbbreviationCode14()
    ensures AbbreviationIndex(Code(Entry(14).1)) == 14
  {
    assert Code(Entry(14).1) == 18753;
  }

  lemma AbbreviationCode15()
    ensures AbbreviationIndex(Code(Entry(15).1)) == 15
  {
    assert Code(Entry(15).1) == 19283;
  }

  lemma AbbreviationCode16()
    ensures AbbreviationIndex(Code(Entry(16).1)) == 16
  {
    assert Code(Entry(16).1) == 19289;
  }

  lemma AbbreviationCode17()
    ensures AbbreviationIndex(Code(Entry(17).1)) == 17
  {
    assert Code(Entry(17).1) == 19521;
  }

  lemma AbbreviationCode18()
    ensures AbbreviationIndex(Code(Entry(18).1)) == 18
  {
    assert Code(Entry(18).1) == 19781;
  }

  lemma AbbreviationCode19()
    ensures AbbreviationIndex(Code(Entry(19).1)) == 19
  {
    assert Code(Entry(19).1) == 19780;
  }

  lemma AbbreviationCode20()
    ensures AbbreviationIndex(Code(Entry(20).1)) == 20
  {
    assert Code(Entry(20).1) == 19777;
  }

  lemma AbbreviationCode21()
    ensures AbbreviationIndex(Code(Entry(21).1)) == 21
  {
    assert Code(Entry(21).1) == 19785;
  }

  lemma AbbreviationCode22()
    ensures AbbreviationIndex(Code(Entry(22).1)) == 22
  {
    assert Code(Entry(22).1) == 19790;
  }

  lemma AbbreviationCode23()
    ensures AbbreviationIndex(Code(Entry(23).1)) == 23
  {
    assert Code(Entry(23).1) == 19795;
  }

  lemma AbbreviationCode24()
    ensures AbbreviationIndex(Code(Entry(24).1)) == 24
  {
    assert Code(Entry(24).1) == 19791;
  }

  lemma AbbreviationCode25()
    ensures AbbreviationIndex(Code(Entry(25).1)) == 25
  {
    assert Code(Entry(25).1) == 19796;
  }

  lemma AbbreviationCode26()
    ensures AbbreviationIndex(Code(Entry(26).1)) == 26
  {
    assert Code(Entry(26).1) == 20037;
  }

  lemma AbbreviationCode27()
    ensures AbbreviationIndex(Code(Entry(27).1)) == 27
  {
    assert Code(Entry(27).1) == 20054;
  }

  lemma AbbreviationCode28()
    ensures AbbreviationIndex(Code(Entry(28).1)) == 28
  {
    assert Code(Entry(28).1) == 20040;
  }

  lemma AbbreviationCode29()
    ensures AbbreviationIndex(Code(Entry(29).1)) == 29
  {
    assert Code(Entry(29).1) == 20042;
  }

  lemma AbbreviationCode30()
    ensures AbbreviationIndex(Code(Entry(30).1)) == 30
  {
    assert Code(Entry(30).1) == 20045;
  }

  lemma AbbreviationCode31()
    ensures AbbreviationIndex(Code(Entry(31).1)) == 31
  {
    assert Code(Entry(31).1) == 20057;
  }

  lemma AbbreviationCode32()
    ensures AbbreviationIndex(Code(Entry(32).1)) == 32
  {
    assert Code(Entry(32).1) == 20035;
  }

  lemma AbbreviationCode33()
    ensures AbbreviationIndex(Code(Entry(33).1)) == 33
  {
    assert Code(Entry(33).1) == 20036;
  }

  lemma AbbreviationCode34()
    ensures AbbreviationIndex(Code(Entry(34).1)) == 34
  {
    assert Code(Entry(34).1) == 20296;
  }

  lemma AbbreviationCode35()
    ensures AbbreviationIndex(Code(Entry(35).1)) == 35
  {
    assert Code(Entry(35).1) == 20299;
  }

  lemma AbbreviationCode36()
    ensures AbbreviationIndex(Code(Entry(36).1)) == 36
  {
    assert Code(Entry(36).1) == 20306;
  }

  lemma AbbreviationCode37()
    ensures AbbreviationIndex(Code(Entry(37).1)) == 37
  {
    assert Code(Entry(37).1) == 20545;
  }

  lemma AbbreviationCode38()
    ensures AbbreviationIndex(Code(Entry(38).1)) == 38
  {
    assert Code(Entry(38).1) == 21065;
  }

  lemma AbbreviationCode39()
    ensures AbbreviationIndex(Code(Entry(39).1)) == 39
  {
    assert Code(Entry(39).1) == 21315;
  }

  lemma AbbreviationCode40()
    ensures AbbreviationIndex(Code(Entry(40).1)) == 40
  {
    assert Code(Entry(40).1) == 21316;
  }

  lemma AbbreviationCode41()
    ensures AbbreviationIndex(Code(Entry(41).1)) == 41
  {
    assert Code(Entry(41).1) == 21582;
  }

  lemma AbbreviationCode42()
    ensures AbbreviationIndex(Code(Entry(42).1)) == 42
  {
    assert Code(Entry(42).1) == 21592;
  }

  lemma AbbreviationCode43()
    ensures AbbreviationIndex(Code(Entry(43).1)) == 43
  {
    assert Code(Entry(43).1) == 21844;
  }

  lemma AbbreviationCode44()
    ensures AbbreviationIndex(Code(Entry(44).1)) == 44
  {
    assert Code(Entry(44).1) == 22100;
  }

  lemma AbbreviationCode45()
    ensures AbbreviationIndex(Code(Entry(45).1)) == 45
  {
    assert Code(Entry(45).1) == 22081;
  }

  lemma AbbreviationCode46()
    ensures AbbreviationIndex(Code(Entry(46).1)) == 46
  {
    assert Code(Entry(46).1) == 22337;
  }

  lemma AbbreviationCode47()
    ensures AbbreviationIndex(Code(Entry(47).1)) == 47
  {
    assert Code(Entry(47).1) == 22358;
  }

  lemma AbbreviationCode48()
    ensures AbbreviationIndex(Code(Entry(48).1)) == 48
  {
    assert Code(Entry(48).1) == 22345;
  }

  lemma AbbreviationCode49()
    ensures AbbreviationIndex(Code(Entry(49).1)) == 49
  {
    assert Code(Entry(49).1) == 22361;
  }

  lemma AbbreviationIndexOfEntry(i: nat)
    requires i < 50
    ensures AbbreviationIndex(Code(Entry(i).1)) == i
  {
    if i == 0 { AbbreviationCode0(); }
    else if i == 1 { AbbreviationCode1(); }
    else if i == 2 { AbbreviationCode2(); }
    else if i == 3 { AbbreviationCode3(); }
    else if i == 4 { AbbreviationCode4(); }
    else if i == 5 { AbbreviationCode5(); }
    else if i == 6 { AbbreviationCode6(); }
    else if i == 7 { AbbreviationCode7(); }
    else if i == 8 { AbbreviationCode8(); }
    else if i == 9 { AbbreviationCode9(); }
    else if i == 10 { AbbreviationCode10(); }
    else if i == 11 { AbbreviationCode11(); }
    else if i == 12 { AbbreviationCode12(); }
    else if i == 13 { AbbreviationCode13(); }
    else if i == 14 { AbbreviationCode14(); }
    else if i == 15 { AbbreviationCode15(); }
    else if i == 16 { AbbreviationCode16(); }
    else if i == 17 { AbbreviationCode17(); }
    else if i == 18 { AbbreviationCode18(); }
    else if i == 19 { AbbreviationCode19(); }
    else if i == 20 { AbbreviationCode20(); }
    else if i == 21 { AbbreviationCode21(); }
    else if i == 22 { AbbreviationCode22(); }
    else if i == 23 { AbbreviationCode23(); }
    else if i == 24 { AbbreviationCode24(); }
    else if i == 25 { AbbreviationCode25(); }
    else if i == 26 { AbbreviationCode26(); }
    else if i == 27 { AbbreviationCode27(); }
    else if i == 28 { AbbreviationCode28(); }
    else if i == 29 { AbbreviationCode29(); }
    else if i == 30 { AbbreviationCode30(); }
    else if i == 31 { AbbreviationCode31(); }
    else if i == 32 { AbbreviationCode32(); }
    else if i == 33 { AbbreviationCode33(); }
    else if i == 34 { AbbreviationCode34(); }
    else if i == 35 { AbbreviationCode35(); }
    else if i == 36 { AbbreviationCode36(); }
    else if i == 37 { AbbreviationCode37(); }
    else if i == 38 { AbbreviationCode38(); }
    else if i == 39 { AbbreviationCode39(); }
    else if i == 40 { AbbreviationCode40(); }
    else if i == 41 { AbbreviationCode41(); }
    else if i == 42 { AbbreviationCode42(); }
    else if i == 43 { AbbreviationCode43(); }
    else if i == 44 { AbbreviationCode44(); }
    else if i == 45 { AbbreviationCode45(); }
    else if i == 46 { AbbreviationCode46(); }
    else if i == 47 { AbbreviationCode47(); }
    else if i == 48 { AbbreviationCode48(); }
    else { AbbreviationCode49(); }
  }

  /** The table has 50 different state names. */
  lemma NamesDistinct()
    ensures NoDuplicates(Names())
  {
    forall i, j | 0 <= i < j < 50 ensures Names()[i] != Names()[j] {
      NameIndexOfEntry(i);
      NameIndexOfEntry(j);
    }
  }

  /** The table has 50 different abbreviations. */
  lemma AbbreviationsDistinct()
    ensures NoDuplicates(Abbreviations())
  {
    forall i, j | 0 <= i < j < 50 ensures Abbreviations()[i] != Abbreviations()[j] {
      AbbreviationIndexOfEntry(i);
      AbbreviationIndexOfEntry(j);
    }
  }

  /**
   * The dict a Python literal `{k0: v0, k1: v1, ...}` builds: the pairs inserted in order,
   * so a repeated key would keep its last value.
   */
  function DictLiteral<K(==,!new), V>(keys: seq<K>, values: seq<V>): (dict: map<K, V>)
    requires |keys| == |values|
    ensures forall k :: k in dict <==> k in keys
    ensures NoDuplicates(keys) ==> forall i :: 0 <= i < |keys| ==> dict[keys[i]] == values[i]
  {
    if keys == [] then map[]
    else
      var n := |keys| - 1;
      var earlier := DictLiteral(keys[..n], values[..n]);
      assert forall k :: k in keys <==> k in keys[..n] || k == keys[n] by {
        assert keys == keys[..n] + [keys[n]];
      }
      assert NoDuplicates(keys) ==> NoDuplicates(keys[..n]);
      earlier[keys[n] := values[n]]
  }

  /** With distinct keys the dict has one key per pair, and with distinct values one value per pair. */
  lemma DictLiteralSize<K(!new), V(!new)>(keys: seq<K>, values: seq<V>)
    requires |keys| == |values| && NoDuplicates(keys) && NoDuplicates(values)
    ensures |DictLiteral(keys, values).Keys| == |keys|
    ensures |DictLiteral(keys, values).Values| == |values|
  {
    var dict := DictLiteral(keys, values);
    assert dict.Keys == set k | k in keys;
    assert dict.Values == set v | v in values by {
      forall v | v in dict.Values ensures v in values {
        var k :| k in dict && dict[k] == v;
        var i :| 0 <= i < |keys| && keys[i] == k;
        assert values[i] == v;
      }
      forall v | v in values ensures v in dict.Values {
        var i :| 0 <= i < |values| && values[i] == v;
        assert dict[keys[i]] == v;
      }
    }
    DistinctElementCount(keys);
    DistinctElementCount(values);
  }

  /** `state_abbreviations` (lines 214-224). */
  function StateAbbreviations(): (table: map<string, string>)
    ensures forall name :: name in table <==> name in Names()
    ensures forall i :: 0 <= i < 50 ==> table[Names()[i]] == Abbreviations()[i]
  {
    NamesDistinct();
    DictLiteral(Names(), Abbreviations())
  }

  /** The table has 50 distinct keys mapping to 50 distinct abbreviations. */
  lemma TableShape()
    ensures |StateAbbreviations().Keys| == 50
    ensures |StateAbbreviations().Values| == 50
  {
    NamesDistinct();
    AbbreviationsDistinct();
    DictLiteralSize(Names(), Abbreviations());
  }

  /** Every value of the table is one of its 50 abbreviations, and those are distinct. */
  lemma TableValuesListed()
    ensures NoDuplicates(Abbreviations())
    ensures forall name :: name in StateAbbreviations() ==> StateAbbreviations()[name] in Abbreviations()
  {
    AbbreviationsDistinct();
    forall name | name in StateAbbreviations() ensures StateAbbreviations()[name] in Abbreviations() {
      var i :| 0 <= i < 50 && Names()[i] == name;
    }
  }

  lemma WyomingIsWY()
    ensures "Wyoming" in StateAbbreviations() && StateAbbreviations()["Wyoming"] == "WY"
  {
    assert Names()[49] == "Wyoming";
    assert Abbreviations()[49] == "WY";
  }

  /** A placeholder such as "Not Entered" is not a key, so its rows get no abbreviation. */
  lemma NotEnteredIsUnmapped()
    ensures "Not Entered" !in StateAbbreviations()
  {
    assert NameIndex(Signature("Not Entered")) == -1;
    if "Not Entered" in StateAbbreviations() {
      var i :| 0 <= i < 50 && Names()[i] == "Not Entered";
      NameIndexOfEntry(i);
    }
  }
}
