/**
 * The restaurant's operating-details step of the sign-up wizard
 * (app/screens/registerrestaurantoperational.tsx): the strict `HH:mm` check, the predicate
 * that enables the Next button, the check `handleNext` makes, and the updaters of the day
 * map and the queue list. The screen's state lives in React hooks; here it is a record and
 * each updater is a function from the old value to the new one.
 */
module OperationalForm {
  import opened Wrappers
  import opened Text
  import Registration

  // ---------------------------------------------------------------------------
  // validarHorario: /^([01]\d|2[0-3]):([0-5]\d)$/
  // ---------------------------------------------------------------------------

  /** The hour part: `0` or `1` then any digit, or `2` then `0`..`3`. */
  predicate IsHourText(a: char, b: char) {
    ((a == '0' || a == '1') && IsDigit(b)) || (a == '2' && '0' <= b <= '3')
  }

  predicate ValidarHorario(h: string) {
    && |h| == 5 && IsHourText(h[0], h[1]) && h[2] == ':'
    && '0' <= h[3] <= '5' && IsDigit(h[4])
  }

  /** Two digits, zero-padded. */
  function Pad2(n: nat): (r: string)
    requires n < 100
    ensures |r| == 2 && IsDigit(r[0]) && IsDigit(r[1])
    ensures DigitValue(r[0]) * 10 + DigitValue(r[1]) == n
  {
    [DigitChar(n / 10), DigitChar(n % 10)]
  }

  /** The clock text of an hour and a minute. */
  function ClockText(hh: nat, mm: nat): (r: string)
    requires hh < 24 && mm < 60
    ensures |r| == 5
  {
    Pad2(hh) + ":" + Pad2(mm)
  }

  /** The hour a valid text denotes. */
  function HourOf(h: string): (n: nat)
    requires ValidarHorario(h)
  {
    DigitValue(h[0]) * 10 + DigitValue(h[1])
  }

  function MinuteOf(h: string): (n: nat)
    requires ValidarHorario(h)
  {
    DigitValue(h[3]) * 10 + DigitValue(h[4])
  }

  /** The check accepts exactly the clock times 00:00 to 23:59, each written one way:
      every valid text is the clock text of its hour and minute, which are in range, and
      every clock text is valid. */
  lemma ValidarHorarioIsClockTime(h: string, hh: nat, mm: nat)
    ensures ValidarHorario(h) ==> HourOf(h) < 24 && MinuteOf(h) < 60 && h == ClockText(HourOf(h), MinuteOf(h))
    ensures hh < 24 && mm < 60 ==> ValidarHorario(ClockText(hh, mm))
  {
    if ValidarHorario(h) {
      var t := ClockText(HourOf(h), MinuteOf(h));
      DigitCharOfValue(h[0]);
      DigitCharOfValue(h[1]);
      DigitCharOfValue(h[3]);
      DigitCharOfValue(h[4]);
      assert t[0] == h[0] && t[1] == h[1] && t[3] == h[3] && t[4] == h[4];
    }
    if hh < 24 && mm < 60 {
      var t := ClockText(hh, mm);
      assert t[0] == DigitChar(hh / 10) && t[1] == DigitChar(hh % 10);
      assert t[3] == DigitChar(mm / 10);
    }
  }

  lemma DigitCharOfValue(c: char)
    requires IsDigit(c)
    ensures DigitChar(DigitValue(c)) == c
  {
  }

  /** The texts the step's hint names: "24:00", "9:00" and "12:60" are refused. */
  lemma ValidarHorarioExamples()
    ensures ValidarHorario("08:00") && ValidarHorario("23:59") && ValidarHorario("00:00")
    ensures !ValidarHorario("24:00") && !ValidarHorario("9:00") && !ValidarHorario("12:60")
  {
  }

  // ---------------------------------------------------------------------------
  // The screen's state
  // ---------------------------------------------------------------------------

  /** A queue row; `editando` is whether its name is being edited. */
  datatype QueueItem = QueueItem(nome: string, ativo: bool, editando: bool)

  datatype Screen = Screen(
    reserva: bool, fila: bool, filas: seq<QueueItem>, diasFuncionamento: map<string, bool>,
    horarioAbertura: string, horarioFechamento: string,
    cardapioUri: Option<string>, cardapioNome: string, precoMinimo: int, precoMaximo: int)

  /** The state the screen opens with: two inactive queues, every day off, 08:00 to 22:00,
      no menu, prices 20 to 80. */
  const InitialScreen := Screen(
    false, false,
    [QueueItem("Fila 1", false, false), QueueItem("Fila 2", false, false)],
    map d | d in Registration.Days :: false,
    "08:00", "22:00", None, "", 20, 80)

  /** `requiredValid`: a service chosen, some day open, and a menu picked. */
  predicate RequiredValid(s: Screen) {
    && (s.reserva || s.fila)
    && (exists d :: d in s.diasFuncionamento && s.diasFuncionamento[d])
    && s.cardapioUri.Some? && s.cardapioUri.value != ""
  }

  datatype NextOutcome = Disabled | InvalidTime | GoToFinal

  /** Pressing Next: the button is disabled unless `requiredValid`; `handleNext` then only
      checks that both times are valid. */
  function PressNext(s: Screen): (o: NextOutcome) {
    if !RequiredValid(s) then Disabled
    else if !ValidarHorario(s.horarioAbertura) || !ValidarHorario(s.horarioFechamento) then InvalidTime
    else GoToFinal
  }

  /** The step moves on exactly when the required fields are there and both times are valid
      clock times; nothing compares the opening time with the closing time. */
  lemma PressNextSpec(s: Screen)
    ensures PressNext(s) == GoToFinal <==> RequiredValid(s) && ValidarHorario(s.horarioAbertura) && ValidarHorario(s.horarioFechamento)
    ensures PressNext(s) == Disabled <==> !RequiredValid(s)
  {
  }

  /** Opening at 22:00 and closing at 08:00 passes. */
  lemma ClosingBeforeOpeningAccepted(s: Screen)
    requires RequiredValid(s)
    ensures PressNext(s.(horarioAbertura := "22:00", horarioFechamento := "08:00")) == GoToFinal
  {
    assert ValidarHorario("22:00") && ValidarHorario("08:00");
  }

  /** The screen opens with Next disabled: no service, no day and no menu chosen. */
  lemma InitialScreenDisabled()
    ensures PressNext(InitialScreen) == Disabled
    ensures |InitialScreen.filas| == 2 && forall k :: 0 <= k < 2 ==> !InitialScreen.filas[k].ativo
  {
  }

  // ---------------------------------------------------------------------------
  // Updaters
  // ---------------------------------------------------------------------------

  /** `toggleDia`: `{...prev, [dia]: !prev[dia]}`; a day missing from the map reads as
      undefined, so toggling it sets it to true. */
  function ToggleDia(dias: map<string, bool>, dia: string): map<string, bool> {
    dias[dia := !(dia in dias && dias[dia])]
  }

  /** Only `dia` changes, and it flips; toggling twice restores any day that was present. */
  lemma ToggleDiaSpec(dias: map<string, bool>, dia: string)
    ensures var r := ToggleDia(dias, dia);
      && r.Keys == dias.Keys + {dia}
      && (forall d :: d in dias && d != dia ==> r[d] == dias[d])
      && (dia in dias ==> r[dia] == !dias[dia])
      && (dia !in dias ==> r[dia])
    ensures dia in dias ==> ToggleDia(ToggleDia(dias, dia), dia) == dias
  {
  }

  /** Toggling a day that was off (or missing) leaves some day open, which is the day part
      of `requiredValid`. */
  lemma ToggleDiaOpensDay(dias: map<string, bool>, dia: string)
    requires dia !in dias || !dias[dia]
    ensures exists d :: d in ToggleDia(dias, dia) && ToggleDia(dias, dia)[d]
  {
    assert dia in ToggleDia(dias, dia) && ToggleDia(dias, dia)[dia];
  }

  /** `adicionarFila`: a new inactive queue named after the new length. */
  function AdicionarFila(filas: seq<QueueItem>): seq<QueueItem> {
    filas + [QueueItem("Fila " + Decimal(|filas| + 1), false, false)]
  }

  /** The existing rows are kept as they were, and exactly one row is added, whose name's
      number reads back as the new length. */
  lemma AdicionarFilaSpec(filas: seq<QueueItem>)
    ensures var r := AdicionarFila(filas);
      && |r| == |filas| + 1 && r[..|filas|] == filas
      && !r[|filas|].ativo && !r[|filas|].editando
      && r[|filas|].nome[..5] == "Fila " && DecimalValue(r[|filas|].nome[5..]) == |r|
  {
    var r := AdicionarFila(filas);
    assert r[|filas|].nome[5..] == Decimal(|filas| + 1);
    DecimalRoundTrip(|filas| + 1);
  }

  /** The rows after pressing "add" twice on the initial list are Fila 1 to Fila 4. */
  lemma AdicionarFilaFromInitial()
    ensures AdicionarFila(AdicionarFila(InitialScreen.filas))
            == [QueueItem("Fila 1", false, false), QueueItem("Fila 2", false, false),
                QueueItem("Fila 3", false, false), QueueItem("Fila 4", false, false)]
  {
    var one := AdicionarFila(InitialScreen.filas);
    assert Decimal(3) == "3" && "Fila " + "3" == "Fila 3";
    assert one == InitialScreen.filas + [QueueItem("Fila 3", false, false)];
    assert Decimal(4) == "4" && "Fila " + "4" == "Fila 4";
  }

  /** Renaming can give two rows the same name; adding a row afterwards does not look. */
  lemma QueueNamesCanRepeat()
    ensures var r := AdicionarFila(RenomearFila(InitialScreen.filas, 0, "Fila 3"));
      r[0].nome == r[2].nome
  {
    assert Decimal(3) == "3";
  }

  /** `prev.map((f, i) => i === index ? change(f) : f)`, for the three changes the screen makes. */
  function ToggleFila(filas: seq<QueueItem>, index: int): (r: seq<QueueItem>)
    ensures |r| == |filas|
  {
    seq(|filas|, k requires 0 <= k < |filas| => if k == index then filas[k].(ativo := !filas[k].ativo) else filas[k])
  }

  function ToggleEditarFila(filas: seq<QueueItem>, index: int): (r: seq<QueueItem>)
    ensures |r| == |filas|
  {
    seq(|filas|, k requires 0 <= k < |filas| => if k == index then filas[k].(editando := !filas[k].editando) else filas[k])
  }

  function RenomearFila(filas: seq<QueueItem>, index: int, nome: string): (r: seq<QueueItem>)
    ensures |r| == |filas|
  {
    seq(|filas|, k requires 0 <= k < |filas| => if k == index then filas[k].(nome := nome) else filas[k])
  }

  /** Each row updater changes only the row at `index` and only the field it is about;
      an index outside the list changes nothing. */
  lemma RowUpdatersTouchOneRow(filas: seq<QueueItem>, index: int, nome: string)
    ensures forall k :: 0 <= k < |filas| && k != index ==>
      ToggleFila(filas, index)[k] == filas[k] && ToggleEditarFila(filas, index)[k] == filas[k]
      && RenomearFila(filas, index, nome)[k] == filas[k]
    ensures 0 <= index < |filas| ==>
      && ToggleFila(filas, index)[index] == filas[index].(ativo := !filas[index].ativo)
      && ToggleEditarFila(filas, index)[index] == filas[index].(editando := !filas[index].editando)
      && RenomearFila(filas, index, nome)[index] == filas[index].(nome := nome)
    ensures !(0 <= index < |filas|) ==>
      ToggleFila(filas, index) == filas && ToggleEditarFila(filas, index) == filas
      && RenomearFila(filas, index, nome) == filas
  {
  }

  /** The two toggles undo themselves, and renaming twice keeps the last name. */
  lemma RowUpdatersInvolutions(filas: seq<QueueItem>, index: int, a: string, b: string)
    ensures ToggleFila(ToggleFila(filas, index), index) == filas
    ensures ToggleEditarFila(ToggleEditarFila(filas, index), index) == filas
    ensures RenomearFila(RenomearFila(filas, index, a), index, b) == RenomearFila(filas, index, b)
  {
    assert forall k :: 0 <= k < |filas| ==> ToggleFila(ToggleFila(filas, index), index)[k] == filas[k];
    assert forall k :: 0 <= k < |filas| ==> ToggleEditarFila(ToggleEditarFila(filas, index), index)[k] == filas[k];
  }
}
