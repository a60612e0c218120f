/**
 * The chart description handed to the chart renderer: category labels and
 * a list of datasets, each drawn as bars or as a line and bound to the
 * left amount axis `y` or the right count axis `y1`.
 */
module Charts {

  datatype Kind = Bar | Line

  datatype Axis = Y | Y1

  datatype Dataset = Dataset(kind: Kind, legend: string, data: seq<real>, axis: Axis)

  datatype ChartData = ChartData(labels: seq<string>, datasets: seq<Dataset>)

  /** The fixed binding rule: bars measure amounts on `y`, lines measure counts on `y1`. */
  ghost predicate BindingHolds(c: ChartData)
  {
    forall i :: 0 <= i < |c.datasets| ==>
      (c.datasets[i].kind == Bar ==> c.datasets[i].axis == Y) &&
      (c.datasets[i].kind == Line ==> c.datasets[i].axis == Y1)
  }

  /** Every dataset has one value per category label. */
  ghost predicate Aligned(c: ChartData)
  {
    forall i :: 0 <= i < |c.datasets| ==> |c.datasets[i].data| == |c.labels|
  }

  /** The kinds of the datasets, in order. */
  function Kinds(c: ChartData): (r: seq<Kind>)
    ensures |r| == |c.datasets|
    ensures forall i :: 0 <= i < |r| ==> r[i] == c.datasets[i].kind
  {
    seq(|c.datasets|, i requires 0 <= i < |c.datasets| => c.datasets[i].kind)
  }

  /** `xs.map(v => v * f)`. */
  function Scale(xs: seq<real>, f: real): (r: seq<real>)
    ensures |r| == |xs|
    ensures forall i :: 0 <= i < |xs| ==> r[i] == xs[i] * f
  {
    seq(|xs|, i requires 0 <= i < |xs| => xs[i] * f)
  }

  /** The assumed average ticket the detail views divide amounts by. */
  const AverageTicket: real := 200.0

  /** `amounts.map(val => val / 200)`: the implied transaction counts. */
  function Volume(amounts: seq<real>): (r: seq<real>)
  {
    seq(|amounts|, i requires 0 <= i < |amounts| => amounts[i] / AverageTicket)
  }

  /** The volume series has one count per amount, and multiplying back by the ticket gives the amount. */
  lemma VolumeInverts(amounts: seq<real>)
    ensures |Volume(amounts)| == |amounts|
    ensures forall i :: 0 <= i < |amounts| ==> Volume(amounts)[i] * AverageTicket == amounts[i]
  {
  }
}
