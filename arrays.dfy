/**
 * GWArray: a quantity with an optional name, epoch and channel. Arithmetic and conversion
 * delegate to the quantity and give the result the left operand's metadata.
 */
module Arrays {
  import opened Wrappers
  import opened Units

  /** Channel metadata is carried through unchanged and only compared; its name stands for it. */
  datatype Channel = Channel(name: string)

  datatype GWArray = GWArray(quantity: Quantity, name: Option<string>, epoch: Option<Time>,
                             channel: Option<Channel>)

  /** The unit used when none is given. */
  function DefaultUnit(unit: Option<Unit>): (u: Unit)
    ensures unit.Some? ==> u == unit.value
    ensures unit.None? ==> u.name == "" && u.scale == 1.0 && u.dims == NoDims
  {
    match unit
    case Some(given) => given
    case None => Dimensionless()
  }

  function New(value: seq<real>, unit: Option<Unit>, name: Option<string>, epoch: Option<Time>,
               channel: Option<Channel>): (a: GWArray)
    ensures Value(a) == value && GetName(a) == name && GetEpoch(a) == epoch && GetChannel(a) == channel
    ensures UnitOf(a) == DefaultUnit(unit)
  {
    GWArray(Quantity(value, DefaultUnit(unit)), name, epoch, channel)
  }

  function Value(a: GWArray): seq<real> {
    a.quantity.values
  }

  function UnitOf(a: GWArray): Unit {
    a.quantity.unit
  }

  function GetName(a: GWArray): Option<string> {
    a.name
  }

  function GetEpoch(a: GWArray): Option<Time> {
    a.epoch
  }

  function GetChannel(a: GWArray): Option<Channel> {
    a.channel
  }

  /** Whether `b` carries the same name, epoch and channel as `a`. */
  predicate SameMetadata(a: GWArray, b: GWArray) {
    a.name == b.name && a.epoch == b.epoch && a.channel == b.channel
  }

  /** A GWArray holding the quantity a collaborator computed, and the metadata of `lhs`. */
  function WithQuantityOf(q: Result<Quantity, QuantityError>, lhs: GWArray): (r: Result<GWArray, QuantityError>)
    ensures r.Failure? <==> q.Failure?
    ensures r.Failure? ==> r.error == q.error
    ensures r.Success? ==> r.value.quantity == q.value && SameMetadata(r.value, lhs)
  {
    match q
    case Failure(e) => Failure(e)
    case Success(v) => Success(New(v.values, Some(v.unit), lhs.name, lhs.epoch, lhs.channel))
  }

  /** Conversion into `target`: the converted quantity with the same metadata, or the conversion's error. */
  function To(a: GWArray, target: Unit): (r: Result<GWArray, QuantityError>)
    ensures r.Success? <==> UnitOf(a).dims == target.dims
    ensures r.Failure? ==> r.error == IncompatibleUnits(UnitOf(a).name, target.name)
    ensures r.Success? ==> UnitOf(r.value) == target && |Value(r.value)| == |Value(a)|
    ensures r.Success? ==> SameMetadata(r.value, a)
  {
    WithQuantityOf(Units.To(a.quantity, target), a)
  }

  /** Converting to another unit of the same dimensions and back gives the original array. */
  lemma ToRoundTrip(a: GWArray, u: Unit)
    requires UnitOf(a).dims == u.dims
    ensures To(a, u).Success?
    ensures To(To(a, u).value, UnitOf(a)) == Success(a)
  {
    Units.ToRoundTrip(a.quantity, u);
  }

  function Add(lhs: GWArray, rhs: GWArray): (r: Result<GWArray, QuantityError>)
    requires Broadcastable(|Value(lhs)|, |Value(rhs)|)
    ensures r.Failure? <==> QAdd(lhs.quantity, rhs.quantity).Failure?
    ensures r.Failure? ==> r.error == QAdd(lhs.quantity, rhs.quantity).error
    ensures r.Success? ==> r.value.quantity == QAdd(lhs.quantity, rhs.quantity).value && SameMetadata(r.value, lhs)
  {
    WithQuantityOf(QAdd(lhs.quantity, rhs.quantity), lhs)
  }

  function Sub(lhs: GWArray, rhs: GWArray): (r: Result<GWArray, QuantityError>)
    requires Broadcastable(|Value(lhs)|, |Value(rhs)|)
    ensures r.Failure? <==> QSub(lhs.quantity, rhs.quantity).Failure?
    ensures r.Failure? ==> r.error == QSub(lhs.quantity, rhs.quantity).error
    ensures r.Success? ==> r.value.quantity == QSub(lhs.quantity, rhs.quantity).value && SameMetadata(r.value, lhs)
  {
    WithQuantityOf(QSub(lhs.quantity, rhs.quantity), lhs)
  }

  /** The product: it never fails. */
  function Mul(lhs: GWArray, rhs: GWArray): (r: Result<GWArray, QuantityError>)
    requires Broadcastable(|Value(lhs)|, |Value(rhs)|)
    ensures r.Success?
    ensures r.value.quantity == QMul(lhs.quantity, rhs.quantity) && SameMetadata(r.value, lhs)
  {
    WithQuantityOf(Success(QMul(lhs.quantity, rhs.quantity)), lhs)
  }

  function Div(lhs: GWArray, rhs: GWArray): (r: Result<GWArray, QuantityError>)
    requires Broadcastable(|Value(lhs)|, |Value(rhs)|)
    ensures r.Failure? <==> QDiv(lhs.quantity, rhs.quantity).Failure?
    ensures r.Failure? ==> r.error == QDiv(lhs.quantity, rhs.quantity).error
    ensures r.Success? ==> r.value.quantity == QDiv(lhs.quantity, rhs.quantity).value && SameMetadata(r.value, lhs)
  {
    WithQuantityOf(QDiv(lhs.quantity, rhs.quantity), lhs)
  }

  /** Every successful operation's value has the broadcast length of its operands. */
  lemma OperationLengths(lhs: GWArray, rhs: GWArray)
    requires Broadcastable(|Value(lhs)|, |Value(rhs)|)
    ensures forall r <- [Add(lhs, rhs), Sub(lhs, rhs), Mul(lhs, rhs), Div(lhs, rhs)] ::
              r.Success? ==> |Value(r.value)| == BroadcastLen(|Value(lhs)|, |Value(rhs)|)
  {
  }

  /** Adding arrays whose units differ fails naming the left unit, then the right one, even for m + cm. */
  lemma AddDifferentUnitsFails(lhs: GWArray, rhs: GWArray)
    requires Broadcastable(|Value(lhs)|, |Value(rhs)|)
    requires UnitOf(lhs) != UnitOf(rhs)
    ensures Add(lhs, rhs) == Failure(IncompatibleAddition(UnitOf(lhs).name, UnitOf(rhs).name))
  {
  }

  /** The sum of arrays in one unit is elementwise, keeps the unit and takes the left metadata. */
  lemma AddSameUnit(lhs: GWArray, rhs: GWArray)
    requires |Value(lhs)| == |Value(rhs)|
    requires UnitOf(lhs) == UnitOf(rhs)
    ensures Add(lhs, rhs).Success?
    ensures UnitOf(Add(lhs, rhs).value) == UnitOf(lhs)
    ensures Value(Add(lhs, rhs).value) ==
            seq(|Value(lhs)|, i requires 0 <= i < |Value(lhs)| => Value(lhs)[i] + Value(rhs)[i])
    ensures SameMetadata(Add(lhs, rhs).value, lhs)
  {
  }
}
