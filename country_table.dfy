/**
 * The fixed table of selectable countries and regions: 251 rows of a
 * two-letter code and an English label, in the order the field class lists
 * them (src/fields/CountrySelectBaseOptionsField.php, lines 164-414). The
 * codes are ISO 3166-1 alpha-2 codes plus the two pseudo-codes AP
 * (Asia/Pacific Region) and EU (Europe).
 *
 * The table is split into chunks of at most 16 rows so that facts about it
 * can be checked chunk by chunk and then joined.
 */
module CountryTable {

  /** One catalog row: the stored code and its display label. */
  datatype CountryOption = CountryOption(value: string, caption: string)

  /** Rows from lines 164-179, AD to AX. */
  function Rows0(): seq<CountryOption>
  {
    [
      CountryOption("AD", "Andorra"),
      CountryOption("AE", "United Arab Emirates"),
      CountryOption("AF", "Afghanistan"),
      CountryOption("AG", "Antigua and Barbuda"),
      CountryOption("AI", "Anguilla"),
      CountryOption("AL", "Albania"),
      CountryOption("AM", "Armenia"),
      CountryOption("AO", "Angola"),
      CountryOption("AP", "Asia/Pacific Region"),
      CountryOption("AQ", "Antarctica"),
      CountryOption("AR", "Argentina"),
      CountryOption("AS", "American Samoa"),
      CountryOption("AT", "Austria"),
      CountryOption("AU", "Australia"),
      CountryOption("AW", "Aruba"),
      CountryOption("AX", "Aland Islands")
    ]
  }

  /** Rows from lines 180-195, AZ to BR. */
  function Rows1(): seq<CountryOption>
  {
    [
      CountryOption("AZ", "Azerbaijan"),
      CountryOption("BA", "Bosnia and Herzegovina"),
      CountryOption("BB", "Barbados"),
      CountryOption("BD", "Bangladesh"),
      CountryOption("BE", "Belgium"),
      CountryOption("BF", "Burkina Faso"),
      CountryOption("BG", "Bulgaria"),
      CountryOption("BH", "Bahrain"),
      CountryOption("BI", "Burundi"),
      CountryOption("BJ", "Benin"),
      CountryOption("BL", "Saint Bartelemey"),
      CountryOption("BM", "Bermuda"),
      CountryOption("BN", "Brunei Darussalam"),
      CountryOption("BO", "Bolivia"),
      CountryOption("BQ", "Bonaire, Saint Eustatius and Saba"),
      CountryOption("BR", "Brazil")
    ]
  }

  /** Rows from lines 196-211, BS to CM. */
  function Rows2(): seq<CountryOption>
  {
    [
      CountryOption("BS", "Bahamas"),
      CountryOption("BT", "Bhutan"),
      CountryOption("BV", "Bouvet Island"),
      CountryOption("BW", "Botswana"),
      CountryOption("BY", "Belarus"),
      CountryOption("BZ", "Belize"),
      CountryOption("CA", "Canada"),
      CountryOption("CC", "Cocos (Keeling) Islands"),
      CountryOption("CD", "Congo, The Democratic Republic of the"),
      CountryOption("CF", "Central African Republic"),
      CountryOption("CG", "Congo"),
      CountryOption("CH", "Switzerland"),
      CountryOption("CI", "Cote d'Ivoire"),
      CountryOption("CK", "Cook Islands"),
      CountryOption("CL", "Chile"),
      CountryOption("CM", "Cameroon")
    ]
  }

  /** Rows from lines 212-227, CN to EC. */
  function Rows3(): seq<CountryOption>
  {
    [
      CountryOption("CN", "China"),
      CountryOption("CO", "Colombia"),
      CountryOption("CR", "Costa Rica"),
      CountryOption("CU", "Cuba"),
      CountryOption("CV", "Cape Verde"),
      CountryOption("CW", "Curacao"),
      CountryOption("CX", "Christmas Island"),
      CountryOption("CY", "Cyprus"),
      CountryOption("CZ", "Czech Republic"),
      CountryOption("DE", "Germany"),
      CountryOption("DJ", "Djibouti"),
      CountryOption("DK", "Denmark"),
      CountryOption("DM", "Dominica"),
      CountryOption("DO", "Dominican Republic"),
      CountryOption("DZ", "Algeria"),
      CountryOption("EC", "Ecuador")
    ]
  }

  /** Rows from lines 228-243, EE to GD. */
  function Rows4(): seq<CountryOption>
  {
    [
      CountryOption("EE", "Estonia"),
      CountryOption("EG", "Egypt"),
      CountryOption("EH", "Western Sahara"),
      CountryOption("ER", "Eritrea"),
      CountryOption("ES", "Spain"),
      CountryOption("ET", "Ethiopia"),
      CountryOption("EU", "Europe"),
      CountryOption("FI", "Finland"),
      CountryOption("FJ", "Fiji"),
      CountryOption("FK", "Falkland Islands (Malvinas)"),
      CountryOption("FM", "Micronesia, Federated States of"),
      CountryOption("FO", "Faroe Islands"),
      CountryOption("FR", "France"),
      CountryOption("GA", "Gabon"),
      CountryOption("GB", "United Kingdom"),
      CountryOption("GD", "Grenada")
    ]
  }

  /** Rows from lines 244-259, GE to GY. */
  function Rows5(): seq<CountryOption>
  {
    [
      CountryOption("GE", "Georgia"),
      CountryOption("GF", "French Guiana"),
      CountryOption("GG", "Guernsey"),
      CountryOption("GH", "Ghana"),
      CountryOption("GI", "Gibraltar"),
      CountryOption("GL", "Greenland"),
      CountryOption("GM", "Gambia"),
      CountryOption("GN", "Guinea"),
      CountryOption("GP", "Guadeloupe"),
      CountryOption("GQ", "Equatorial Guinea"),
      CountryOption("GR", "Greece"),
      CountryOption("GS", "South Georgia and the South Sandwich Islands"),
      CountryOption("GT", "Guatemala"),
      CountryOption("GU", "Guam"),
      CountryOption("GW", "Guinea-Bissau"),
      CountryOption("GY", "Guyana")
    ]
  }

  /** Rows from lines 260-275, HK to IT. */
  function Rows6(): seq<CountryOption>
  {
    [
      CountryOption("HK", "Hong Kong"),
      CountryOption("HM", "Heard Island and McDonald Islands"),
      CountryOption("HN", "Honduras"),
      CountryOption("HR", "Croatia"),
      CountryOption("HT", "Haiti"),
      CountryOption("HU", "Hungary"),
      CountryOption("ID", "Indonesia"),
      CountryOption("IE", "Ireland"),
      CountryOption("IL", "Israel"),
      CountryOption("IM", "Isle of Man"),
      CountryOption("IN", "India"),
      CountryOption("IO", "British Indian Ocean Territory"),
      CountryOption("IQ", "Iraq"),
      CountryOption("IR", "Iran, Islamic Republic of"),
      CountryOption("IS", "Iceland"),
      CountryOption("IT", "Italy")
    ]
  }

  /** Rows from lines 276-291, JE to LA. */
  function Rows7(): seq<CountryOption>
  {
    [
      CountryOption("JE", "Jersey"),
      CountryOption("JM", "Jamaica"),
      CountryOption("JO", "Jordan"),
      CountryOption("JP", "Japan"),
      CountryOption("KE", "Kenya"),
      CountryOption("KG", "Kyrgyzstan"),
      CountryOption("KH", "Cambodia"),
      CountryOption("KI", "Kiribati"),
      CountryOption("KM", "Comoros"),
      CountryOption("KN", "Saint Kitts and Nevis"),
      CountryOption("KP", "Korea, Democratic People's Republic of"),
      CountryOption("KR", "Korea, Republic of"),
      CountryOption("KW", "Kuwait"),
      CountryOption("KY", "Cayman Islands"),
      CountryOption("KZ", "Kazakhstan"),
      CountryOption("LA", "Lao People's Democratic Republic")
    ]
  }

  /** Rows from lines 292-307, LB to MG. */
  function Rows8(): seq<CountryOption>
  {
    [
      CountryOption("LB", "Lebanon"),
      CountryOption("LC", "Saint Lucia"),
      CountryOption("LI", "Liechtenstein"),
      CountryOption("LK", "Sri Lanka"),
      CountryOption("LR", "Liberia"),
      CountryOption("LS", "Lesotho"),
      CountryOption("LT", "Lithuania"),
      CountryOption("LU", "Luxembourg"),
      CountryOption("LV", "Latvia"),
      CountryOption("LY", "Libyan Arab Jamahiriya"),
      CountryOption("MA", "Morocco"),
      CountryOption("MC", "Monaco"),
      CountryOption("MD", "Moldova, Republic of"),
      CountryOption("ME", "Montenegro"),
      CountryOption("MF", "Saint Martin"),
      CountryOption("MG", "Madagascar")
    ]
  }

  /** Rows from lines 308-323, MH to MY. */
  function Rows9(): seq<CountryOption>
  {
    [
      CountryOption("MH", "Marshall Islands"),
      CountryOption("MK", "Macedonia"),
      CountryOption("ML", "Mali"),
      CountryOption("MM", "Myanmar"),
      CountryOption("MN", "Mongolia"),
      CountryOption("MO", "Macao"),
      CountryOption("MP", "Northern Mariana Islands"),
      CountryOption("MQ", "Martinique"),
      CountryOption("MR", "Mauritania"),
      CountryOption("MS", "Montserrat"),
      CountryOption("MT", "Malta"),
      CountryOption("MU", "Mauritius"),
      CountryOption("MV", "Maldives"),
      CountryOption("MW", "Malawi"),
      CountryOption("MX", "Mexico"),
      CountryOption("MY", "Malaysia")
    ]
  }

  /** Rows from lines 324-339, MZ to PE. */
  function Rows10(): seq<CountryOption>
  {
    [
      CountryOption("MZ", "Mozambique"),
      CountryOption("NA", "Namibia"),
      CountryOption("NC", "New Caledonia"),
      CountryOption("NE", "Niger"),
      CountryOption("NF", "Norfolk Island"),
      CountryOption("NG", "Nigeria"),
      CountryOption("NI", "Nicaragua"),
      CountryOption("NL", "Netherlands"),
      CountryOption("NO", "Norway"),
      CountryOption("NP", "Nepal"),
      CountryOption("NR", "Nauru"),
      CountryOption("NU", "Niue"),
      CountryOption("NZ", "New Zealand"),
      CountryOption("OM", "Oman"),
      CountryOption("PA", "Panama"),
      CountryOption("PE", "Peru")
    ]
  }

  /** Rows from lines 340-355, PF to RS. */
  function Rows11(): seq<CountryOption>
  {
    [
      CountryOption("PF", "French Polynesia"),
      CountryOption("PG", "Papua New Guinea"),
      CountryOption("PH", "Philippines"),
      CountryOption("PK", "Pakistan"),
      CountryOption("PL", "Poland"),
      CountryOption("PM", "Saint Pierre and Miquelon"),
      CountryOption("PN", "Pitcairn"),
      CountryOption("PR", "Puerto Rico"),
      CountryOption("PS", "Palestinian Territory"),
      CountryOption("PT", "Portugal"),
      CountryOption("PW", "Palau"),
      CountryOption("PY", "Paraguay"),
      CountryOption("QA", "Qatar"),
      CountryOption("RE", "Reunion"),
      CountryOption("RO", "Romania"),
      CountryOption("RS", "Serbia")
    ]
  }

  /** Rows from lines 356-371, RU to SO. */
  function Rows12(): seq<CountryOption>
  {
    [
      CountryOption("RU", "Russian Federation"),
      CountryOption("RW", "Rwanda"),
      CountryOption("SA", "Saudi Arabia"),
      CountryOption("SB", "Solomon Islands"),
      CountryOption("SC", "Seychelles"),
      CountryOption("SD", "Sudan"),
      CountryOption("SE", "Sweden"),
      CountryOption("SG", "Singapore"),
      CountryOption("SH", "Saint Helena"),
      CountryOption("SI", "Slovenia"),
      CountryOption("SJ", "Svalbard and Jan Mayen"),
      CountryOption("SK", "Slovakia"),
      CountryOption("SL", "Sierra Leone"),
      CountryOption("SM", "San Marino"),
      CountryOption("SN", "Senegal"),
      CountryOption("SO", "Somalia")
    ]
  }

  /** Rows from lines 372-387, SR to TM. */
  function Rows13(): seq<CountryOption>
  {
    [
      CountryOption("SR", "Suriname"),
      CountryOption("SS", "South Sudan"),
      CountryOption("ST", "Sao Tome and Principe"),
      CountryOption("SV", "El Salvador"),
      CountryOption("SX", "Sint Maarten"),
      CountryOption("SY", "Syrian Arab Republic"),
      CountryOption("SZ", "Swaziland"),
      CountryOption("TC", "Turks and Caicos Islands"),
      CountryOption("TD", "Chad"),
      CountryOption("TF", "French Southern Territories"),
      CountryOption("TG", "Togo"),
      CountryOption("TH", "Thailand"),
      CountryOption("TJ", "Tajikistan"),
      CountryOption("TK", "Tokelau"),
      CountryOption("TL", "Timor-Leste"),
      CountryOption("TM", "Turkmenistan")
    ]
  }

  /** Rows from lines 388-403, TN to VE. */
  function Rows14(): seq<CountryOption>
  {
    [
      CountryOption("TN", "Tunisia"),
      CountryOption("TO", "Tonga"),
      CountryOption("TR", "Turkey"),
      CountryOption("TT", "Trinidad and Tobago"),
      CountryOption("TV", "Tuvalu"),
      CountryOption("TW", "Taiwan"),
      CountryOption("TZ", "Tanzania, United Republic of"),
      CountryOption("UA", "Ukraine"),
      CountryOption("UG", "Uganda"),
      CountryOption("UM", "United States Minor Outlying Islands"),
      CountryOption("US", "United States"),
      CountryOption("UY", "Uruguay"),
      CountryOption("UZ", "Uzbekistan"),
      CountryOption("VA", "Holy See (Vatican City State)"),
      CountryOption("VC", "Saint Vincent and the Grenadines"),
      CountryOption("VE", "Venezuela")
    ]
  }

  /** Rows from lines 404-414, VG to ZW. */
  function Rows15(): seq<CountryOption>
  {
    [
      CountryOption("VG", "Virgin Islands, British"),
      CountryOption("VI", "Virgin Islands, U.S."),
      CountryOption("VN", "Vietnam"),
      CountryOption("VU", "Vanuatu"),
      CountryOption("WF", "Wallis and Futuna"),
      CountryOption("WS", "Samoa"),
      CountryOption("YE", "Yemen"),
      CountryOption("YT", "Mayotte"),
      CountryOption("ZA", "South Africa"),
      CountryOption("ZM", "Zambia"),
      CountryOption("ZW", "Zimbabwe")
    ]
  }

  /** The whole table, in source order. */
  function Table(): seq<CountryOption>
  {
    Rows0() + Rows1() + Rows2() + Rows3() + Rows4() + Rows5() + Rows6() + Rows7() + Rows8() + Rows9() + Rows10() + Rows11() + Rows12() + Rows13() + Rows14() + Rows15()
  }

  /** A code as the table writes them: two upper-case ASCII letters. */
  predicate IsCode(s: string)
  {
    |s| == 2 && 'A' <= s[0] <= 'Z' && 'A' <= s[1] <= 'Z'
  }

  /** Strict alphabetical order of two codes. */
  predicate CodeBefore(a: string, b: string)
  {
    IsCode(a) && IsCode(b) && (a[0] < b[0] || (a[0] == b[0] && a[1] < b[1]))
  }

  /** Every row holds a code and each code comes alphabetically after the previous one. */
  predicate AdjacentAscending(rows: seq<CountryOption>)
  {
    && (forall i :: 0 <= i < |rows| ==> IsCode(rows[i].value))
    && (forall i :: 0 < i < |rows| ==> CodeBefore(rows[i - 1].value, rows[i].value))
  }

  /** No two rows share a code. */
  predicate DistinctCodes(rows: seq<CountryOption>)
  {
    forall i, j :: 0 <= i < j < |rows| ==> rows[i].value != rows[j].value
  }

  lemma AscendingAppend(a: seq<CountryOption>, b: seq<CountryOption>)
    requires AdjacentAscending(a) && AdjacentAscending(b)
    requires a != [] && b != [] ==> CodeBefore(a[|a| - 1].value, b[0].value)
    ensures AdjacentAscending(a + b)
  {
    var ab := a + b;
    forall i | 0 < i < |ab| ensures CodeBefore(ab[i - 1].value, ab[i].value) {
      if i < |a| {
        assert ab[i - 1] == a[i - 1] && ab[i] == a[i];
      } else if i == |a| {
        assert ab[i - 1] == a[|a| - 1] && ab[i] == b[0];
      } else {
        assert ab[i - 1] == b[i - 1 - |a|] && ab[i] == b[i - |a|];
      }
    }
  }

  /** Adjacent order extends to every pair: the codes strictly increase along the rows. */
  lemma {:induction false} AscendingPairwise(rows: seq<CountryOption>)
    requires AdjacentAscending(rows)
    ensures forall i, j :: 0 <= i < j < |rows| ==> CodeBefore(rows[i].value, rows[j].value)
    decreases |rows|
  {
    if |rows| > 1 {
      var init := rows[..|rows| - 1];
      assert AdjacentAscending(init) by {
        forall i | 0 < i < |init| ensures CodeBefore(init[i - 1].value, init[i].value) {
          assert init[i - 1] == rows[i - 1] && init[i] == rows[i];
        }
      }
      AscendingPairwise(init);
      var last := |rows| - 1;
      forall i, j | 0 <= i < j < |rows| ensures CodeBefore(rows[i].value, rows[j].value) {
        if j < last {
          assert init[i] == rows[i] && init[j] == rows[j];
        } else if i < last - 1 {
          assert init[i] == rows[i] && init[last - 1] == rows[last - 1];
          assert CodeBefore(rows[i].value, rows[last - 1].value);
        }
      }
    }
  }

  // Each chunk on its own is within reach of the solver.
  lemma Rows0Ascending()
    ensures AdjacentAscending(Rows0())
  {
    var rows := Rows0();
    assert forall i :: 0 <= i < |rows| ==> IsCode(rows[i].value);
    assert forall i :: 0 < i < |rows| ==> CodeBefore(rows[i - 1].value, rows[i].value);
  }

  lemma Rows1Ascending()
    ensures AdjacentAscending(Rows1())
  {
    var rows := Rows1();
    assert forall i :: 0 <= i < |rows| ==> IsCode(rows[i].value);
    assert forall i :: 0 < i < |rows| ==> CodeBefore(rows[i - 1].value, rows[i].value);
  }

  lemma Rows2Ascending()
    ensures AdjacentAscending(Rows2())
  {
    var rows := Rows2();
    assert forall i :: 0 <= i < |rows| ==> IsCode(rows[i].value);
    assert forall i :: 0 < i < |rows| ==> CodeBefore(rows[i - 1].value, rows[i].value);
  }

  lemma Rows3Ascending()
    ensures AdjacentAscending(Rows3())
  {
    var rows := Rows3();
    assert forall i :: 0 <= i < |rows| ==> IsCode(rows[i].value);
    assert forall i :: 0 < i < |rows| ==> CodeBefore(rows[i - 1].value, rows[i].value);
  }

  lemma Rows4Ascending()
    ensures AdjacentAscending(Rows4())
  {
    var rows := Rows4();
    assert forall i :: 0 <= i < |rows| ==> IsCode(rows[i].value);
    assert forall i :: 0 < i < |rows| ==> CodeBefore(rows[i - 1].value, rows[i].value);
  }

  lemma Rows5Ascending()
    ensures AdjacentAscending(Rows5())
  {
    var rows := Rows5();
    assert forall i :: 0 <= i < |rows| ==> IsCode(rows[i].value);
    assert forall i :: 0 < i < |rows| ==> CodeBefore(rows[i - 1].value, rows[i].value);
  }

  lemma Rows6Ascending()
    ensures AdjacentAscending(Rows6())
  {
    var rows := Rows6();
    assert forall i :: 0 <= i < |rows| ==> IsCode(rows[i].value);
    assert forall i :: 0 < i < |rows| ==> CodeBefore(rows[i - 1].value, rows[i].value);
  }

  lemma Rows7Ascending()
    ensures AdjacentAscending(Rows7())
  {
    var rows := Rows7();
    assert forall i :: 0 <= i < |rows| ==> IsCode(rows[i].value);
    assert forall i :: 0 < i < |rows| ==> CodeBefore(rows[i - 1].value, rows[i].value);
  }

  lemma Rows8Ascending()
    ensures AdjacentAscending(Rows8())
  {
    var rows := Rows8();
    assert forall i :: 0 <= i < |rows| ==> IsCode(rows[i].value);
    assert forall i :: 0 < i < |rows| ==> CodeBefore(rows[i - 1].value, rows[i].value);
  }

  lemma Rows9Ascending()
    ensures AdjacentAscending(Rows9())
  {
    var rows := Rows9();
    assert forall i :: 0 <= i < |rows| ==> IsCode(rows[i].value);
    assert forall i :: 0 < i < |rows| ==> CodeBefore(rows[i - 1].value, rows[i].value);
  }

  lemma Rows10Ascending()
    ensures AdjacentAscending(Rows10())
  {
    var rows := Rows10();
    assert forall i :: 0 <= i < |rows| ==> IsCode(rows[i].value);
    assert forall i :: 0 < i < |rows| ==> CodeBefore(rows[i - 1].value, rows[i].value);
  }

  lemma Rows11Ascending()
    ensures AdjacentAscending(Rows11())
  {
    var rows := Rows11();
    assert forall i :: 0 <= i < |rows| ==> IsCode(rows[i].value);
    assert forall i :: 0 < i < |rows| ==> CodeBefore(rows[i - 1].value, rows[i].value);
  }

  lemma Rows12Ascending()
    ensures AdjacentAscending(Rows12())
  {
    var rows := Rows12();
    assert forall i :: 0 <= i < |rows| ==> IsCode(rows[i].value);
    assert forall i :: 0 < i < |rows| ==> CodeBefore(rows[i - 1].value, rows[i].value);
  }

  lemma Rows13Ascending()
    ensures AdjacentAscending(Rows13())
  {
    var rows := Rows13();
    assert forall i :: 0 <= i < |rows| ==> IsCode(rows[i].value);
    assert forall i :: 0 < i < |rows| ==> CodeBefore(rows[i - 1].value, rows[i].value);
  }

  lemma Rows14Ascending()
    ensures AdjacentAscending(Rows14())
  {
    var rows := Rows14();
    assert forall i :: 0 <= i < |rows| ==> IsCode(rows[i].value);
    assert forall i :: 0 < i < |rows| ==> CodeBefore(rows[i - 1].value, rows[i].value);
  }

  lemma Rows15Ascending()
    ensures AdjacentAscending(Rows15())
  {
    var rows := Rows15();
    assert forall i :: 0 <= i < |rows| ==> IsCode(rows[i].value);
    assert forall i :: 0 < i < |rows| ==> CodeBefore(rows[i - 1].value, rows[i].value);
  }

  /** The table as written: 251 rows, each with a two-letter code, in strictly ascending code order. */
  lemma TableAscending()
    ensures |Table()| == 251
    ensures AdjacentAscending(Table())
  {
    Rows0Ascending();
    Rows1Ascending();
    Rows2Ascending();
    Rows3Ascending();
    Rows4Ascending();
    Rows5Ascending();
    Rows6Ascending();
    Rows7Ascending();
    Rows8Ascending();
    Rows9Ascending();
    Rows10Ascending();
    Rows11Ascending();
    Rows12Ascending();
    Rows13Ascending();
    Rows14Ascending();
    Rows15Ascending();
    var acc := Rows0();
    AscendingAppend(acc, Rows1());
    acc := acc + Rows1();
    AscendingAppend(acc, Rows2());
    acc := acc + Rows2();
    AscendingAppend(acc, Rows3());
    acc := acc + Rows3();
    AscendingAppend(acc, Rows4());
    acc := acc + Rows4();
    AscendingAppend(acc, Rows5());
    acc := acc + Rows5();
    AscendingAppend(acc, Rows6());
    acc := acc + Rows6();
    AscendingAppend(acc, Rows7());
    acc := acc + Rows7();
    AscendingAppend(acc, Rows8());
    acc := acc + Rows8();
    AscendingAppend(acc, Rows9());
    acc := acc + Rows9();
    AscendingAppend(acc, Rows10());
    acc := acc + Rows10();
    AscendingAppend(acc, Rows11());
    acc := acc + Rows11();
    AscendingAppend(acc, Rows12());
    acc := acc + Rows12();
    AscendingAppend(acc, Rows13());
    acc := acc + Rows13();
    AscendingAppend(acc, Rows14());
    acc := acc + Rows14();
    AscendingAppend(acc, Rows15());
    acc := acc + Rows15();
    assert acc == Table();
  }

  /** The table's codes are pairwise distinct and all two upper-case letters. */
  lemma TableCodes()
    ensures |Table()| == 251
    ensures DistinctCodes(Table())
    ensures forall i :: 0 <= i < |Table()| ==> IsCode(Table()[i].value)
  {
    TableAscending();
    AscendingPairwise(Table());
  }
}
