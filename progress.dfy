/**
 * The per-layer progress record kept while an image is pulled (the
 * `HashMap<String, ProgressBar>` of src/mayo.rs `pull_image` and of
 * src/docker.rs `pull_server_image`). The terminal drawing is not modelled; a
 * bar is the abstract record of its message, length, position, style and
 * whether it was finished. The two files update a bar differently, so a
 * `Flavour` says which of the two rules applies.
 */
module Progress {
  import opened Wrappers
  import opened Engine

  /** The bar template: a byte bar, or the spinner template showing only the message. */
  datatype Style = ByteBar | Spinner

  datatype Bar = Bar(message: string, length: Option<nat>, position: nat, style: Style, finished: bool)

  /** `Mayo` is the rule of src/mayo.rs, `Legacy` the rule of src/docker.rs. */
  datatype Flavour = Mayo | Legacy

  /** A status that ends a layer's bar. */
  predicate IsTerminalStatus(status: string)
  {
    status == "Download complete" || status == "Pull complete" || status == "Already exists"
  }

  /** The bar created for a layer seen for the first time: length zero, position zero, message the layer id. */
  function NewBar(flavour: Flavour, id: string): (b: Bar)
    ensures b.message == id && b.length == Some(0) && b.position == 0 && !b.finished
    ensures b.style == (if flavour == Mayo then ByteBar else Spinner)
  {
    Bar(id, Some(0), 0, if flavour == Mayo then ByteBar else Spinner, false)
  }

  /** A status sets the message to "<id>: <status>", and a terminal status also finishes the bar. */
  function ApplyStatus(b: Bar, id: string, status: Option<string>): (r: Bar)
    ensures status.None? ==> r == b
    ensures status.Some? ==> r.message == id + ": " + status.value
    ensures r.finished <==> b.finished || (status.Some? && IsTerminalStatus(status.value))
    ensures r.length == b.length && r.position == b.position && r.style == b.style
  {
    match status
    case None => b
    case Some(s) => b.(message := id + ": " + s, finished := b.finished || IsTerminalStatus(s))
  }

  /**
   * The engine's progress numbers are signed; src/mayo.rs converts them with
   * a conversion that aborts on a negative value, so that rule requires them
   * to be non-negative.
   */
  predicate ProgressNonNegative(info: CreateImageInfo)
  {
    info.progressDetail.Some? ==> DetailNonNegative(info.progressDetail.value)
  }

  predicate DetailNonNegative(d: ProgressDetail)
  {
    (d.total.Some? ==> d.total.value >= 0) && (d.current.Some? ==> d.current.value >= 0)
  }

  /** src/mayo.rs: a total sets the length and a current value sets the position, each on its own. */
  function ApplyDetailMayo(b: Bar, detail: Option<ProgressDetail>): (r: Bar)
    requires detail.Some? ==> DetailNonNegative(detail.value)
    ensures detail.Some? && detail.value.total.Some? ==> r.length == Some(detail.value.total.value)
    ensures detail.None? || detail.value.total.None? ==> r.length == b.length
    ensures detail.Some? && detail.value.current.Some? ==> r.position == detail.value.current.value
    ensures detail.None? || detail.value.current.None? ==> r.position == b.position
    ensures r.message == b.message && r.style == b.style && r.finished == b.finished
  {
    match detail
    case None => b
    case Some(d) =>
      var b1 := if d.total.Some? then b.(length := Some(d.total.value)) else b;
      if d.current.Some? then b1.(position := d.current.value) else b1
  }

  /**
   * src/docker.rs: only a detail with both numbers and a positive total
   * counts; a total different from the current length (none counting as zero)
   * sets the length and switches to the byte bar, and a non-negative current
   * value sets the position.
   */
  function ApplyDetailLegacy(b: Bar, detail: Option<ProgressDetail>): (r: Bar)
    ensures r.message == b.message && r.finished == b.finished
    ensures (detail.None? || detail.value.current.None? || detail.value.total.None? || detail.value.total.value <= 0) ==> r == b
    ensures detail.Some? && detail.value.current.Some? && detail.value.total.Some? && detail.value.total.value > 0 ==>
      r.length == Some(detail.value.total.value)
      && (r.style == if LengthOrZero(b) != detail.value.total.value then ByteBar else b.style)
      && r.position == (if detail.value.current.value >= 0 then detail.value.current.value else b.position)
  {
    match detail
    case None => b
    case Some(d) =>
      match (d.current, d.total)
      case (Some(current), Some(total)) =>
        if total > 0 then
          var b1 := if LengthOrZero(b) != total then b.(length := Some(total), style := ByteBar) else b;
          if current >= 0 then b1.(position := current) else b1
        else b
      case _ => b
  }

  function LengthOrZero(b: Bar): nat { if b.length.Some? then b.length.value else 0 }

  /**
   * The precondition a flavour's rule has on one message: src/mayo.rs
   * converts the progress numbers only of a message with a layer id.
   */
  predicate Admissible(flavour: Flavour, info: CreateImageInfo)
  {
    flavour == Mayo && info.id.Some? ==> ProgressNonNegative(info)
  }

  /**
   * One pull message: a message without a layer id is ignored; otherwise the
   * layer's bar is created if needed and updated, the status first in
   * src/mayo.rs and last in src/docker.rs.
   */
  function Step(flavour: Flavour, layers: map<string, Bar>, info: CreateImageInfo): (r: map<string, Bar>)
    requires Admissible(flavour, info)
    ensures info.id.None? ==> r == layers
    ensures info.id.Some? ==> r.Keys == layers.Keys + {info.id.value}
    ensures info.id.Some? ==> forall k :: k in layers && k != info.id.value ==> r[k] == layers[k]
  {
    match info.id
    case None => layers
    case Some(id) =>
      var b := if id in layers then layers[id] else NewBar(flavour, id);
      var b' := if flavour == Mayo
        then ApplyDetailMayo(ApplyStatus(b, id, info.status), info.progressDetail)
        else ApplyStatus(ApplyDetailLegacy(b, info.progressDetail), id, info.status);
      layers[id := b']
  }

  predicate AllAdmissible(flavour: Flavour, events: seq<CreateImageInfo>)
  {
    forall j :: 0 <= j < |events| ==> Admissible(flavour, events[j])
  }

  /** The layer map after a run of pull messages, in order. */
  function Apply(flavour: Flavour, layers: map<string, Bar>, events: seq<CreateImageInfo>): map<string, Bar>
    requires AllAdmissible(flavour, events)
  {
    if events == [] then layers
    else Step(flavour, Apply(flavour, layers, events[..|events| - 1]), events[|events| - 1])
  }

  /** The layers tracked are exactly those mentioned by some message. */
  lemma {:induction false} ApplyKeys(flavour: Flavour, events: seq<CreateImageInfo>, k: string)
    requires AllAdmissible(flavour, events)
    ensures k in Apply(flavour, map[], events) <==> exists j :: 0 <= j < |events| && events[j].id == Some(k)
  {
    if events != [] {
      var n := |events| - 1;
      assert AllAdmissible(flavour, events[..n]) by {
        assert forall j :: 0 <= j < n ==> events[..n][j] == events[j];
      }
      ApplyKeys(flavour, events[..n], k);
      if exists j :: 0 <= j < n && events[..n][j].id == Some(k) {
        var j :| 0 <= j < n && events[..n][j].id == Some(k);
        assert events[j].id == Some(k);
      }
      if exists j :: 0 <= j < |events| && events[j].id == Some(k) {
        var j :| 0 <= j < |events| && events[j].id == Some(k);
        if j < n {
          assert events[..n][j].id == Some(k);
        }
      }
    }
  }

  /** A layer's bar is finished exactly when some message for that layer carried a terminal status. */
  lemma {:induction false} ApplyFinished(flavour: Flavour, events: seq<CreateImageInfo>, k: string)
    requires AllAdmissible(flavour, events)
    requires k in Apply(flavour, map[], events)
    ensures Apply(flavour, map[], events)[k].finished <==>
      exists j :: 0 <= j < |events| && events[j].id == Some(k) && events[j].status.Some? && IsTerminalStatus(events[j].status.value)
  {
    var n := |events| - 1;
    assert AllAdmissible(flavour, events[..n]) by {
      assert forall j :: 0 <= j < n ==> events[..n][j] == events[j];
    }
    var before := Apply(flavour, map[], events[..n]);
    if k in before {
      ApplyFinished(flavour, events[..n], k);
    } else {
      ApplyKeys(flavour, events[..n], k);
    }
    if exists j :: 0 <= j < n && events[..n][j].id == Some(k) && events[..n][j].status.Some? && IsTerminalStatus(events[..n][j].status.value) {
      var j :| 0 <= j < n && events[..n][j].id == Some(k) && events[..n][j].status.Some? && IsTerminalStatus(events[..n][j].status.value);
      assert events[j] == events[..n][j];
    }
    if exists j :: 0 <= j < |events| && events[j].id == Some(k) && events[j].status.Some? && IsTerminalStatus(events[j].status.value) {
      var j :| 0 <= j < |events| && events[j].id == Some(k) && events[j].status.Some? && IsTerminalStatus(events[j].status.value);
      if j < n {
        assert events[..n][j] == events[j];
      }
    }
  }

  /**
   * The last message of a layer that carries a status leaves "<id>: <status>"
   * as that layer's message, whatever messages of other layers, or
   * status-less messages of that layer, follow it.
   */
  lemma {:induction false} LastStatusIsMessage(flavour: Flavour, layers: map<string, Bar>, events: seq<CreateImageInfo>, k: string, status: string, j: nat)
    requires AllAdmissible(flavour, events)
    requires j < |events| && events[j].id == Some(k) && events[j].status == Some(status)
    requires forall i :: j < i < |events| && events[i].id == Some(k) ==> events[i].status.None?
    ensures k in Apply(flavour, layers, events) && Apply(flavour, layers, events)[k].message == k + ": " + status
  {
    var n := |events| - 1;
    assert AllAdmissible(flavour, events[..n]) by {
      assert forall i :: 0 <= i < n ==> events[..n][i] == events[i];
    }
    var before := Apply(flavour, layers, events[..n]);
    if j < n {
      assert forall i :: j < i < n ==> events[..n][i] == events[i];
      LastStatusIsMessage(flavour, layers, events[..n], k, status, j);
      assert k in before && before[k].message == k + ": " + status;
    }
  }
}
