/**
 * DataUtil: the operation date "dd/MM/yyy HH:mm:ss" and the hour read from it.
 */
module DataUtil {
  import opened Wrappers
  import opened Textos
  import opened Excecoes

  /**
   * What LocalDateTime.parse accepts with the pattern "dd/MM/yyy HH:mm:ss"
   * (default SMART resolution): two-digit day 1..31 (a day past the end of the
   * month is moved back to its last day, not refused), two-digit month 1..12,
   * a year of 3 to 19 digits whose value is 1..999999999, then two-digit
   * hour 0..23, minute 0..59 and second 0..59. The year is the only field of
   * variable width, so its width is |s| - 15.
   */
  predicate DataValida(s: string) {
    && 18 <= |s| <= 34
    && var w := |s| - 15;
    && AllDigits(s[0..2]) && s[2] == '/'
    && AllDigits(s[3..5]) && s[5] == '/'
    && AllDigits(s[6..6 + w]) && s[6 + w] == ' '
    && AllDigits(s[7 + w..9 + w]) && s[9 + w] == ':'
    && AllDigits(s[10 + w..12 + w]) && s[12 + w] == ':'
    && AllDigits(s[13 + w..15 + w])
    && 1 <= DigitsValue(s[0..2]) <= 31
    && 1 <= DigitsValue(s[3..5]) <= 12
    && 1 <= DigitsValue(s[6..6 + w]) <= 999999999
    && DigitsValue(s[7 + w..9 + w]) <= 23
    && DigitsValue(s[10 + w..12 + w]) <= 59
    && DigitsValue(s[13 + w..15 + w]) <= 59
  }

  /** isDataOperacaoValida: false for null, false for anything the parser refuses. */
  predicate IsDataOperacaoValida(dataOperacao: Option<string>)
    ensures IsDataOperacaoValida(dataOperacao) ==> dataOperacao.Some? && !IsBlank(dataOperacao.value)
  {
    if dataOperacao.Some? && DataValida(dataOperacao.value) then
      assert !IsWhitespace(dataOperacao.value[2]);
      true
    else false
  }

  /** The HH field of a valid date, wherever the variable-width year puts it. */
  function CampoHora(s: string): (h: nat)
    requires DataValida(s)
    ensures h <= 23
  {
    DigitsValue(s[|s| - 8..|s| - 6])
  }

  /** getHora: Integer.parseInt(dataOperacao.substring(11, 13)). */
  function GetHora(dataOperacao: string): (r: Result<int, Throwable>)
    ensures |dataOperacao| < 13 ==> r == Failure(StringIndexOutOfBoundsException())
    ensures |dataOperacao| >= 13 && AllDigits(dataOperacao[11..13]) ==> r == Success(DigitsValue(dataOperacao[11..13]))
    ensures r.Failure? ==> r.error.tipo.StringIndexOutOfBounds? || r.error.tipo.NumberFormat?
  {
    if |dataOperacao| < 13 then Failure(StringIndexOutOfBoundsException())
    else
      match ParseInt(dataOperacao[11..13])
      case Some(h) => Success(h)
      case None => Failure(NumberFormatException(dataOperacao[11..13]))
  }

  /** With a four-digit year, getHora reads exactly the HH field. */
  lemma GetHoraAnoQuatroDigitos(s: string)
    requires DataValida(s) && |s| == 19
    ensures GetHora(s) == Success(CampoHora(s))
  {
    assert s[11..13] == s[|s| - 8..|s| - 6];
  }

  /** With a three-digit year, which the parser accepts, the slice read by getHora
      ends on the ':' after HH and Integer.parseInt throws. */
  lemma GetHoraAnoTresDigitos(s: string)
    requires DataValida(s) && |s| == 18
    ensures GetHora(s).Failure? && GetHora(s).error.tipo.NumberFormat?
  {
    assert s[11..13][1] == s[12] == ':';
    ParseIntRejectsNonDigit(s[11..13], 1);
  }

  /** The digit fields of "01/01/999 10:00:00". */
  lemma CamposDeAnoNovecentos(s: string)
    requires s == "01/01/999 10:00:00"
    ensures s[0..2] == "01" && s[3..5] == "01" && s[6..9] == "999"
    ensures s[10..12] == "10" && s[13..15] == "00" && s[16..18] == "00"
  {
    assert s[0..2] == [s[0], s[1]] == "01";
    assert s[3..5] == [s[3], s[4]] == "01";
    assert s[6..9] == [s[6], s[7], s[8]] == "999";
    assert s[10..12] == [s[10], s[11]] == "10";
    assert s[13..15] == [s[13], s[14]] == "00";
    assert s[16..18] == [s[16], s[17]] == "00";
  }

  /** The values of those fields. */
  lemma ValoresDeAnoNovecentos()
    ensures DigitsValue("01") == 1 && DigitsValue("999") == 999
    ensures DigitsValue("10") == 10 && DigitsValue("00") == 0
  {
    assert DigitsValue("01") == 1 by { assert "01"[..1] == "0"; }
    assert DigitsValue("999") == 999 by { assert "999"[..2] == "99"; assert "99"[..1] == "9"; }
    assert DigitsValue("10") == 10 by { assert "10"[..1] == "1"; }
    assert DigitsValue("00") == 0 by { assert "00"[..1] == "0"; }
  }

  /** A concrete instance: year 999 is a valid operation date, yet getHora throws. */
  lemma AnoNovecentosENoventaENove()
    ensures IsDataOperacaoValida(Some("01/01/999 10:00:00"))
    ensures GetHora("01/01/999 10:00:00") == Failure(NumberFormatException("0:"))
  {
    var s := "01/01/999 10:00:00";
    CamposDeAnoNovecentos(s);
    ValoresDeAnoNovecentos();
    assert DataValida(s);
    assert s[11..13] == "0:";
    ParseIntRejectsNonDigit("0:", 1);
  }

  /** Two decimal digits, with a leading zero below 10, as the pattern's dd, MM, HH, mm and ss
      fields are written. */
  function DoisDigitos(n: nat): (s: string)
    requires n < 100
    ensures |s| == 2 && AllDigits(s) && DigitsValue(s) == n
  {
    var s := [DigitChar(n / 10), DigitChar(n % 10)];
    assert s[..1] == [DigitChar(n / 10)] && s[..1][..0] == [];
    assert DigitsValue(s[..1]) == n / 10;
    assert DigitsValue(s) == 10 * (n / 10) + n % 10;
    s
  }

  lemma AllDigitsConcat(a: string, b: string)
    requires AllDigits(a) && AllDigits(b)
    ensures AllDigits(a + b)
  {
    forall i | 0 <= i < |a + b| ensures IsDigit((a + b)[i]) {
      if i >= |a| { assert (a + b)[i] == b[i - |a|]; }
    }
  }

  /** Appending digit d to x * p + y multiplies the whole by ten and adds d. */
  lemma DeslocaDigito(x: nat, p: nat, y: nat, d: nat)
    ensures 10 * (x * p + y) + d == x * (10 * p) + (10 * y + d)
  {
  }

  /** The value of digits a followed by digits b. */
  lemma {:induction false} DigitsValueConcat(a: string, b: string)
    requires AllDigits(a) && AllDigits(b)
    ensures AllDigits(a + b)
    ensures DigitsValue(a + b) == DigitsValue(a) * Pow10(|b|) + DigitsValue(b)
    decreases |b|
  {
    AllDigitsConcat(a, b);
    if b == [] {
      assert a + b == a;
    } else {
      var b' := b[..|b| - 1];
      var d := DigitValue(b[|b| - 1]);
      assert (a + b)[..|a + b| - 1] == a + b';
      assert (a + b)[|a + b| - 1] == b[|b| - 1];
      DigitsValueConcat(a, b');
      assert DigitsValue(a + b) == 10 * DigitsValue(a + b') + d;
      assert DigitsValue(b) == 10 * DigitsValue(b') + d;
      DeslocaDigito(DigitsValue(a), Pow10(|b'|), DigitsValue(b'), d);
    }
  }

  /** A date written in the pattern "dd/MM/yyyy HH:mm:ss" with a four-digit year. */
  function Formata(dia: nat, mes: nat, ano: nat, hora: nat, minuto: nat, segundo: nat): (s: string)
    requires dia < 100 && mes < 100 && 1000 <= ano <= 9999 && hora < 100 && minuto < 100 && segundo < 100
    ensures |s| == 19
  {
    DoisDigitos(dia) + "/" + DoisDigitos(mes) + "/" + DoisDigitos(ano / 100) + DoisDigitos(ano % 100)
      + " " + DoisDigitos(hora) + ":" + DoisDigitos(minuto) + ":" + DoisDigitos(segundo)
  }

  /** The four year digits Formata writes denote the year. */
  lemma AnoFormatado(ano: nat)
    requires 1000 <= ano <= 9999
    ensures AllDigits(DoisDigitos(ano / 100) + DoisDigitos(ano % 100))
    ensures DigitsValue(DoisDigitos(ano / 100) + DoisDigitos(ano % 100)) == ano
  {
    DigitsValueConcat(DoisDigitos(ano / 100), DoisDigitos(ano % 100));
  }

  /** Where Formata puts each field. */
  lemma FatiasDeFormata(dia: nat, mes: nat, ano: nat, hora: nat, minuto: nat, segundo: nat)
    requires dia < 100 && mes < 100 && 1000 <= ano <= 9999 && hora < 100 && minuto < 100 && segundo < 100
    ensures var s := Formata(dia, mes, ano, hora, minuto, segundo);
            && s[0..2] == DoisDigitos(dia) && s[2] == '/' && s[3..5] == DoisDigitos(mes) && s[5] == '/'
            && s[6..10] == DoisDigitos(ano / 100) + DoisDigitos(ano % 100) && s[10] == ' '
            && s[11..13] == DoisDigitos(hora) && s[13] == ':' && s[14..16] == DoisDigitos(minuto)
            && s[16] == ':' && s[17..19] == DoisDigitos(segundo)
  {
    var s := Formata(dia, mes, ano, hora, minuto, segundo);
    var d, m, y, h, mi, se := DoisDigitos(dia), DoisDigitos(mes), DoisDigitos(ano / 100) + DoisDigitos(ano % 100),
                              DoisDigitos(hora), DoisDigitos(minuto), DoisDigitos(segundo);
    assert s == d + "/" + m + "/" + y + " " + h + ":" + mi + ":" + se;
    assert s[0..2] == d;
    assert s[3..5] == m;
    assert s[6..10] == y;
    assert s[11..13] == h;
    assert s[14..16] == mi;
    assert s[17..19] == se;
  }

  /** isDataOperacaoValida accepts every date written in the pattern with in-range fields, and
      getHora reads its hour back. */
  lemma FormataDataValida(dia: nat, mes: nat, ano: nat, hora: nat, minuto: nat, segundo: nat)
    requires 1 <= dia <= 31 && 1 <= mes <= 12 && 1000 <= ano <= 9999
    requires hora <= 23 && minuto <= 59 && segundo <= 59
    ensures IsDataOperacaoValida(Some(Formata(dia, mes, ano, hora, minuto, segundo)))
    ensures CampoHora(Formata(dia, mes, ano, hora, minuto, segundo)) == hora
    ensures GetHora(Formata(dia, mes, ano, hora, minuto, segundo)) == Success(hora)
  {
    var s := Formata(dia, mes, ano, hora, minuto, segundo);
    FatiasDeFormata(dia, mes, ano, hora, minuto, segundo);
    AnoFormatado(ano);
    assert DataValida(s);
    GetHoraAnoQuatroDigitos(s);
  }
}
