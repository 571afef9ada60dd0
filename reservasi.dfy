/**
 * The non-UI logic of the reservation form (app/reservasi/page.tsx): the kost
 * options built from the fetched list, the selected kost, the prorated total,
 * the one-field form update, and the submit handler with its `loading` and
 * `success` flags. Numbers are unbounded integers: the price arithmetic is
 * exact rational arithmetic rounded as `Math.round` rounds, and `NaN` is
 * `None`.
 */
module Reservasi {
  import opened Wrappers
  import Decimal

  // ---------------------------------------------------------------------------
  // Kost options
  // ---------------------------------------------------------------------------

  /** A kost as the admin API returns it: numeric id, name, yearly price, address. */
  datatype Kost = Kost(id: int, nama: string, harga: int, alamat: string)

  /** A kost as the form's select offers it: the id as text. */
  datatype KostOption = KostOption(id: string, nama: string, harga: int, alamat: string)

  /** One option per kost, in order, with the id written out in decimal. */
  function OptionsOf(data: seq<Kost>): (options: seq<KostOption>)
    ensures |options| == |data|
    ensures forall i :: 0 <= i < |data| ==>
      options[i].id == Decimal.IntToString(data[i].id)
      && options[i].nama == data[i].nama && options[i].harga == data[i].harga && options[i].alamat == data[i].alamat
  {
    if data == [] then []
    else [KostOption(Decimal.IntToString(data[0].id), data[0].nama, data[0].harga, data[0].alamat)] + OptionsOf(data[1..])
  }

  /** `kostOptions`: the options of the fetched list; none before data has loaded. */
  function KostOptions(kostData: Option<seq<Kost>>): (options: seq<KostOption>)
    ensures kostData.None? ==> options == []
    ensures kostData.Some? ==> options == OptionsOf(kostData.value)
  {
    if kostData.None? then [] else OptionsOf(kostData.value)
  }

  /** Reading an option's id back as a number gives the kost's id: the text ids identify kosts as the numbers do. */
  lemma OptionIdsReadBack(data: seq<Kost>, i: nat)
    requires i < |data|
    ensures Decimal.ParseInt(OptionsOf(data)[i].id) == Some(data[i].id)
    ensures forall j :: 0 <= j < |data| && OptionsOf(data)[j].id == OptionsOf(data)[i].id ==> data[j].id == data[i].id
  {
    Decimal.ParseIntToString(data[i].id);
    forall j | 0 <= j < |data| && OptionsOf(data)[j].id == OptionsOf(data)[i].id
      ensures data[j].id == data[i].id
    {
      Decimal.IntToStringInjective(data[j].id, data[i].id);
    }
  }

  /** `selectedKost`: the first option whose id is exactly `kostId`, if there is one. */
  function SelectedKost(options: seq<KostOption>, kostId: string): (r: Option<KostOption>)
    ensures r.None? <==> forall i :: 0 <= i < |options| ==> options[i].id != kostId
    ensures r.Some? ==> r.value.id == kostId
    ensures r.Some? ==> exists i :: (0 <= i < |options| && options[i] == r.value
      && forall j :: 0 <= j < i ==> options[j].id != kostId)
  {
    if options == [] then None
    else if options[0].id == kostId then Some(options[0])
    else
      var r := SelectedKost(options[1..], kostId);
      assert forall i :: 1 <= i < |options| ==> options[i] == options[1..][i - 1];
      r
  }

  // ---------------------------------------------------------------------------
  // Price
  // ---------------------------------------------------------------------------

  /** `Math.round(n / 12)`: the nearest integer, a half rounded upwards. */
  function RoundTwelfth(n: int): (r: int)
    ensures 12 * r - 6 <= n < 12 * r + 6
  {
    (n + 6) / 12
  }

  /** Only one integer is within half a unit of `n / 12` with halves going up, so `RoundTwelfth` is that integer. */
  lemma RoundTwelfthUnique(n: int, r: int)
    requires 12 * r - 6 <= n < 12 * r + 6
    ensures r == RoundTwelfth(n)
  {
  }

  /**
   * `calculateTotal`: 0 without a selected kost; otherwise the yearly price
   * prorated to the duration in months and rounded, `NaN` (here `None`) when
   * the duration does not parse.
   */
  function CalculateTotal(options: seq<KostOption>, form: FormData): (total: Option<int>)
    ensures SelectedKost(options, form.kost_id).None? ==> total == Some(0)
    ensures SelectedKost(options, form.kost_id).Some? ==>
      (total.None? <==> Decimal.ParseInt(form.durasi).None?)
    ensures SelectedKost(options, form.kost_id).Some? && total.Some? ==>
      var harga := SelectedKost(options, form.kost_id).value.harga;
      var months := Decimal.ParseInt(form.durasi).value;
      12 * total.value - 6 <= harga * months < 12 * total.value + 6
  {
    match SelectedKost(options, form.kost_id)
    case None => Some(0)
    case Some(kost) =>
      match Decimal.ParseInt(form.durasi)
      case None => None
      case Some(months) => Some(RoundTwelfth(kost.harga * months))
  }

  /** Twelve months cost exactly the yearly price. */
  lemma FullYearCostsYearlyPrice(options: seq<KostOption>, form: FormData)
    requires SelectedKost(options, form.kost_id).Some?
    requires Decimal.ParseInt(form.durasi) == Some(12)
    ensures CalculateTotal(options, form) == Some(SelectedKost(options, form.kost_id).value.harga)
  {
    var harga := SelectedKost(options, form.kost_id).value.harga;
    var r := RoundTwelfth(harga * 12);
    assert 12 * r - 6 <= 12 * harga < 12 * r + 6;
    assert r == harga;
  }

  /** The default duration, '12', reads as twelve months. */
  lemma DefaultDurationIsTwelve()
    ensures Decimal.ParseInt("12") == Some(12)
  {
    assert Decimal.DigitChar(1) == '1' && Decimal.DigitChar(2) == '2';
    assert Decimal.NatToString(1) == "1";
    assert Decimal.IntToString(12) == Decimal.NatToString(1) + [Decimal.DigitChar(2)] == "12";
    Decimal.ParseIntToString(12);
  }

  /** With a non-negative price, a longer stay never costs less. */
  lemma TotalMonotoneInDuration(harga: int, m1: int, m2: int)
    requires harga >= 0 && m1 <= m2
    ensures RoundTwelfth(harga * m1) <= RoundTwelfth(harga * m2)
  {
  }

  /** A kost priced 12,000,000 a year, booked for 3 months, costs 3,000,000. */
  lemma ThreeMonthsExample()
    ensures RoundTwelfth(12000000 * 3) == 3000000
  {
  }

  // ---------------------------------------------------------------------------
  // Form
  // ---------------------------------------------------------------------------

  /** The form's fields; every control of the form carries one of these names. */
  datatype Field = Nama | Email | Telepon | Ktp | KostId | TanggalMulai | Durasi | Catatan

  datatype FormData = FormData(
    nama: string, email: string, telepon: string, ktp: string,
    kost_id: string, tanggal_mulai: string, durasi: string, catatan: string)

  function Get(form: FormData, f: Field): string
  {
    match f
    case Nama => form.nama
    case Email => form.email
    case Telepon => form.telepon
    case Ktp => form.ktp
    case KostId => form.kost_id
    case TanggalMulai => form.tanggal_mulai
    case Durasi => form.durasi
    case Catatan => form.catatan
  }

  /** The record `handleChange` builds: `{...formData, [name]: value}`. */
  function WithField(form: FormData, f: Field, value: string): (r: FormData)
    ensures Get(r, f) == value
    ensures forall g :: g != f ==> Get(r, g) == Get(form, g)
  {
    match f
    case Nama => form.(nama := value)
    case Email => form.(email := value)
    case Telepon => form.(telepon := value)
    case Ktp => form.(ktp := value)
    case KostId => form.(kost_id := value)
    case TanggalMulai => form.(tanggal_mulai := value)
    case Durasi => form.(durasi := value)
    case Catatan => form.(catatan := value)
  }

  /** Writing a field's current value back changes nothing. */
  lemma WithFieldSameValue(form: FormData, f: Field)
    ensures WithField(form, f, Get(form, f)) == form
  {
  }

  /** Of two changes to the same field, the later one wins. */
  lemma WithFieldLastWins(form: FormData, f: Field, v1: string, v2: string)
    ensures WithField(WithField(form, f, v1), f, v2) == WithField(form, f, v2)
  {
  }

  /** Changes to different fields can be made in either order. */
  lemma WithFieldCommutes(form: FormData, f: Field, g: Field, v: string, w: string)
    requires f != g
    ensures WithField(WithField(form, f, v), g, w) == WithField(WithField(form, g, w), f, v)
  {
  }

  /**
   * The initial `formData`: the kost from the URL's `kost_id` when it is
   * present and not empty, otherwise kost '1'; twelve months; the rest empty.
   */
  function InitialForm(kostIdParam: Option<string>): (form: FormData)
    ensures form.kost_id != ""
    ensures kostIdParam.Some? && kostIdParam.value != "" ==> form.kost_id == kostIdParam.value
    ensures kostIdParam.None? || kostIdParam.value == "" ==> form.kost_id == "1"
    ensures form.durasi == "12"
    ensures forall f :: f != KostId && f != Durasi ==> Get(form, f) == ""
  {
    var kostId := if kostIdParam.Some? && kostIdParam.value != "" then kostIdParam.value else "1";
    FormData("", "", "", "", kostId, "", "12", "")
  }

  // ---------------------------------------------------------------------------
  // Submission
  // ---------------------------------------------------------------------------

  /** The user record kept in browser storage; an absent `name`, `email` or `id` is "" or `None`. */
  datatype StoredUser = StoredUser(id: Option<int>, name: string, email: string)

  /** `user && user.id`: a stored user whose id is present and not 0. */
  predicate HasIdentity(user: Option<StoredUser>): (b: bool)
    // no stored user, or one without an id, cannot submit
    ensures user.None? || user.value.id.None? ==> !b
    // the id 0 is falsy in the guard, so it does not count as an identity
    ensures user.Some? && user.value.id == Some(0) ==> !b
    ensures b ==> user.value.id.value != 0
  {
    user.Some? && user.value.id.Some? && user.value.id.value != 0
  }

  /** The JSON body posted to `/api/reservasi`; `None` stands for `null` (which is also how `NaN` is serialised). */
  datatype Payload = Payload(
    user_id: int, kost_id: Option<int>, tanggal_mulai: string,
    durasi_bulan: Option<int>, total_harga: Option<int>, catatan: Option<string>)

  /** The payload `handleSubmit` builds from the form at submit time. */
  function SubmitPayload(userId: int, options: seq<KostOption>, form: FormData): (p: Payload)
    ensures p.user_id == userId && p.tanggal_mulai == form.tanggal_mulai
    ensures p.total_harga == CalculateTotal(options, form)
    ensures p.kost_id == Decimal.ParseInt(form.kost_id) && p.durasi_bulan == Decimal.ParseInt(form.durasi)
    ensures p.catatan.None? <==> form.catatan == ""
    ensures p.catatan.Some? ==> p.catatan.value == form.catatan
  {
    Payload(
      userId,
      Decimal.ParseInt(form.kost_id),
      form.tanggal_mulai,
      Decimal.ParseInt(form.durasi),
      CalculateTotal(options, form),
      if form.catatan == "" then None else Some(form.catatan))
  }

  /**
   * When the selected kost is one of the fetched ones (as it is when chosen
   * in the select), the posted `kost_id` is that kost's numeric id.
   */
  lemma PostedKostIsSelectedKost(kostData: seq<Kost>, userId: int, form: FormData)
    requires SelectedKost(KostOptions(Some(kostData)), form.kost_id).Some?
    ensures exists i :: (0 <= i < |kostData|
      && SubmitPayload(userId, KostOptions(Some(kostData)), form).kost_id == Some(kostData[i].id)
      && SelectedKost(KostOptions(Some(kostData)), form.kost_id).value.harga == kostData[i].harga)
  {
    var options := KostOptions(Some(kostData));
    var chosen := SelectedKost(options, form.kost_id).value;
    var i :| 0 <= i < |options| && options[i] == chosen
      && forall j :: 0 <= j < i ==> options[j].id != form.kost_id;
    OptionIdsReadBack(kostData, i);
  }

  /** How the POST settled: `response.ok`, `data.success`, `data.message` ("" when absent). */
  datatype Reply = Reply(ok: bool, success: bool, message: string)

  /** What the page does outside its own state. */
  datatype Effect =
    | Alert(message: string)
    | Navigate(path: string)
    | Post(payload: Payload)
    | Refresh
    | NavigateAfterDelay(path: string)

  const LoginRequired: string := "Anda harus login terlebih dahulu!"
  const ReservationFailed: string := "Gagal membuat reservasi. Silakan coba lagi."
  const SomethingWentWrong: string := "Terjadi kesalahan. Silakan coba lagi."

  /** The alert shown when the API answers but not with success: `data.message || ...`. */
  function FailureMessage(reply: Reply): (m: string)
    ensures m != ""
    ensures reply.message != "" ==> m == reply.message
    ensures reply.message == "" ==> m == ReservationFailed
  {
    if reply.message != "" then reply.message else ReservationFailed
  }

  /** What the page does once the request has settled; `None` is a request that threw. */
  function SettleEffects(reply: Option<Reply>): seq<Effect>
  {
    if reply.None? then [Alert(SomethingWentWrong)]
    else if reply.value.ok && reply.value.success then [Refresh, NavigateAfterDelay("/dashboard/reservasi")]
    else [Alert(FailureMessage(reply.value))]
  }

  /** The state of the reservation page and the effects it has had so far. */
  class ReservationPage {
    var user: Option<StoredUser>
    var kostData: Option<seq<Kost>>
    var formData: FormData
    var loading: bool
    var success: bool
    var effects: seq<Effect>

    /** The page as first rendered, for the URL's `kost_id`. */
    constructor (kostIdParam: Option<string>)
      ensures user == None && kostData == None
      ensures formData == InitialForm(kostIdParam)
      ensures !loading && !success && effects == []
    {
      user := None;
      kostData := None;
      formData := InitialForm(kostIdParam);
      loading := false;
      success := false;
      effects := [];
    }

    /** The stored user was read: keep it and fill in name and email. */
    method UserLoaded(u: StoredUser)
      modifies this
      ensures user == Some(u)
      ensures formData == old(formData).(nama := u.name, email := u.email)
      ensures kostData == old(kostData) && loading == old(loading) && success == old(success)
      ensures effects == old(effects)
    {
      user := Some(u);
      formData := formData.(nama := u.name, email := u.email);
    }

    /** The admin API answered; its list is kept only when the answer is ok and successful. */
    method KostLoaded(ok: bool, apiSuccess: bool, data: seq<Kost>)
      modifies this
      ensures kostData == if ok && apiSuccess then Some(data) else old(kostData)
      ensures user == old(user) && formData == old(formData) && loading == old(loading)
      ensures success == old(success) && effects == old(effects)
    {
      if ok && apiSuccess {
        kostData := Some(data);
      }
    }

    function Options(): seq<KostOption>
      reads this
    {
      KostOptions(kostData)
    }

    /** `handleChange`: exactly the named field takes the new value. */
    method HandleChange(f: Field, value: string)
      modifies this
      ensures formData == WithField(old(formData), f, value)
      ensures Get(formData, f) == value
      ensures forall g :: g != f ==> Get(formData, g) == Get(old(formData), g)
      ensures user == old(user) && kostData == old(kostData) && loading == old(loading)
      ensures success == old(success) && effects == old(effects)
    {
      formData := WithField(formData, f, value);
    }

    /**
     * `handleSubmit` up to its `await`: without an identity, alert and go to
     * `/login`, sending nothing and leaving `loading` alone; otherwise set
     * `loading` and post the payload. Returns whether a request is in flight.
     */
    method HandleSubmit() returns (sent: bool)
      modifies this
      ensures sent == HasIdentity(old(user))
      ensures !sent ==>
        effects == old(effects) + [Alert(LoginRequired), Navigate("/login")] && loading == old(loading)
      ensures sent ==>
        loading
        && effects == old(effects) + [Post(SubmitPayload(old(user).value.id.value, Options(), formData))]
      ensures user == old(user) && kostData == old(kostData) && formData == old(formData)
      ensures success == old(success)
    {
      if !HasIdentity(user) {
        effects := effects + [Alert(LoginRequired), Navigate("/login")];
        return false;
      }
      loading := true;
      var totalHarga := CalculateTotal(Options(), formData);
      var payload := Payload(
        user.value.id.value,
        Decimal.ParseInt(formData.kost_id),
        formData.tanggal_mulai,
        Decimal.ParseInt(formData.durasi),
        totalHarga,
        if formData.catatan == "" then None else Some(formData.catatan));
      effects := effects + [Post(payload)];
      sent := true;
    }

    /**
     * `handleSubmit` after its `await`: `reply` is `None` when the request or
     * reading its JSON threw. Success only for an ok, successful reply; an
     * alert otherwise; `loading` is cleared on every path.
     */
    method SubmitFinished(reply: Option<Reply>)
      modifies this
      ensures !loading
      ensures success == (old(success) || (reply.Some? && reply.value.ok && reply.value.success))
      ensures reply.Some? && reply.value.ok && reply.value.success ==>
        effects == old(effects) + [Refresh, NavigateAfterDelay("/dashboard/reservasi")]
      ensures reply.Some? && !(reply.value.ok && reply.value.success) ==>
        effects == old(effects) + [Alert(FailureMessage(reply.value))]
      ensures reply.None? ==> effects == old(effects) + [Alert(SomethingWentWrong)]
      ensures effects == old(effects) + SettleEffects(reply)
      ensures user == old(user) && kostData == old(kostData) && formData == old(formData)
    {
      if reply.None? {
        effects := effects + [Alert(SomethingWentWrong)];
      } else if reply.value.ok && reply.value.success {
        success := true;
        effects := effects + [Refresh, NavigateAfterDelay("/dashboard/reservasi")];
      } else {
        effects := effects + [Alert(FailureMessage(reply.value))];
      }
      // finally
      loading := false;
    }
  }

  /** A whole submission: on a logged-in page `loading` is set while the request is out and cleared after it. */
  method SubmitOnce(page: ReservationPage, reply: Option<Reply>) returns (sent: bool, ghost inFlight: bool)
    modifies page
    ensures sent == HasIdentity(old(page.user))
    // while the request is out the page shows `loading`; it is cleared once it settles
    ensures sent ==> inFlight && !page.loading
    ensures !sent ==> page.loading == old(page.loading) && page.success == old(page.success)
    ensures sent ==> page.success == (old(page.success) || (reply.Some? && reply.value.ok && reply.value.success))
    ensures !sent ==> page.effects == old(page.effects) + [Alert(LoginRequired), Navigate("/login")]
    ensures sent ==>
      page.effects == old(page.effects)
        + [Post(SubmitPayload(old(page.user).value.id.value, KostOptions(old(page.kostData)), old(page.formData)))]
        + SettleEffects(reply)
    ensures page.user == old(page.user) && page.kostData == old(page.kostData) && page.formData == old(page.formData)
  {
    sent := page.HandleSubmit();
    inFlight := page.loading;
    if sent {
      page.SubmitFinished(reply);
    }
  }
}
