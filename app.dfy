/** The sample house budget the program builds, prices and prints. */
module App {
  import opened Budget
  import opened Parts

  /** Builds the house the way the program does, then returns the total it
      reports and the breakdown it prints from the empty indentation. */
  method RunApp() returns (total: real, printed: seq<Line>)
    ensures total == 75000.0
    ensures |printed| == 20
    ensures printed[0] == Line("", "Casa", 75000.0)
    ensures printed == Lines(House(), "")
  {
    var casa := BuildCasa();
    total := casa.GetPrice();
    var out := new Console();
    casa.PrintBudget("", out);
    printed := out.lines;
    HouseBreakdown();
  }

  /** The whole house: land, structure and interior, in that order. */
  method BuildCasa() returns (casa: CompositePart)
    ensures casa.Value() == House()
  {
    var finca := BuildFinca();
    var estructura := BuildEstructura();
    var interior := BuildInterior();
    casa := new CompositePart("Casa");
    casa.AddPart(finca);
    casa.AddPart(estructura);
    casa.AddPart(interior);
  }

  /** The land section: enclosure and garden. */
  method BuildFinca() returns (finca: Part)
    ensures finca == Finca()
  {
    var cierre := new SimplePart("Cierre finca", 4000.0);
    var jardin := new SimplePart("jardín", 1000.0);
    var group := new CompositePart("finca");
    group.AddPart(cierre.Value());
    group.AddPart(jardin.Value());
    finca := group.Value();
  }

  /** The structure section: roof, upper floors and basement. */
  method BuildEstructura() returns (estructura: Part)
    ensures estructura == Estructura()
  {
    var tejado := new SimplePart("tejado", 10000.0);
    var alturas := new SimplePart("alturas", 10000.0);
    var sotano := new SimplePart("sótano", 10000.0);
    var group := new CompositePart("estructura");
    group.AddPart(tejado.Value());
    group.AddPart(alturas.Value());
    group.AddPart(sotano.Value());
    estructura := group.Value();
  }

  /** The interior section: rooms, electrical work and plumbing with heating. */
  method BuildInterior() returns (interior: Part)
    ensures interior == Interior()
  {
    var habitaciones := BuildHabitaciones();
    var electricidad := BuildElectricidad();
    var fontaneria := BuildFontaneria();
    var group := new CompositePart("interior");
    group.AddPart(habitaciones);
    group.AddPart(electricidad);
    group.AddPart(fontaneria);
    interior := group.Value();
  }

  method BuildHabitaciones() returns (habitaciones: Part)
    ensures habitaciones == Habitaciones()
  {
    var mobiliario := new SimplePart("mobiliario", 20000.0);
    var pintura := new SimplePart("pintura", 10000.0);
    var group := new CompositePart("habitaciones");
    group.AddPart(mobiliario.Value());
    group.AddPart(pintura.Value());
    habitaciones := group.Value();
  }

  method BuildElectricidad() returns (electricidad: Part)
    ensures electricidad == Electricidad()
  {
    var cables := new SimplePart("cables", 500.0);
    var operadores := new SimplePart("operadores", 500.0);
    var group := new CompositePart("electricidad");
    group.AddPart(cables.Value());
    group.AddPart(operadores.Value());
    electricidad := group.Value();
  }

  /** Plumbing: the pipes, then the heating group (boiler and radiators). */
  method BuildFontaneria() returns (fontaneria: Part)
    ensures fontaneria == Fontaneria()
  {
    var caldera := new SimplePart("caldera", 4000.0);
    var radiadores := new SimplePart("radiadores", 2000.0);
    var calefaccion := new CompositePart("calefacción");
    calefaccion.AddPart(caldera.Value());
    calefaccion.AddPart(radiadores.Value());
    assert calefaccion.Value() == Calefaccion();

    var tuberias := new SimplePart("tuberías", 3000.0);
    var group := new CompositePart("fontanería");
    group.AddPart(tuberias.Value());
    group.AddPart(calefaccion.Value());
    fontaneria := group.Value();
  }

  /** The house as a value, section by section. */
  function Finca(): Part
  {
    Composite("finca", [Simple("Cierre finca", 4000.0), Simple("jardín", 1000.0)])
  }

  function Estructura(): Part
  {
    Composite("estructura",
      [Simple("tejado", 10000.0), Simple("alturas", 10000.0), Simple("sótano", 10000.0)])
  }

  function Habitaciones(): Part
  {
    Composite("habitaciones", [Simple("mobiliario", 20000.0), Simple("pintura", 10000.0)])
  }

  function Electricidad(): Part
  {
    Composite("electricidad", [Simple("cables", 500.0), Simple("operadores", 500.0)])
  }

  function Fontaneria(): Part
  {
    Composite("fontanería", [Simple("tuberías", 3000.0), Calefaccion()])
  }

  function Calefaccion(): Part
  {
    Composite("calefacción", [Simple("caldera", 4000.0), Simple("radiadores", 2000.0)])
  }

  function Interior(): Part
  {
    Composite("interior", [Habitaciones(), Electricidad(), Fontaneria()])
  }

  function House(): Part
  {
    Composite("Casa", [Finca(), Estructura(), Interior()])
  }

  /** The section totals and the house total, and the number of nodes. */
  lemma HousePrices()
    ensures Price(Finca()) == 5000.0
    ensures Price(Estructura()) == 30000.0
    ensures Price(Interior()) == 40000.0
    ensures Price(House()) == 75000.0
    ensures Size(House()) == 20
  {
    FincaTotals();
    EstructuraTotals();
    InteriorTotals();
    Triple(Finca(), Estructura(), Interior());
  }

  /** The breakdown of the house has 20 lines and opens with the house total. */
  lemma HouseBreakdown()
    ensures Price(House()) == 75000.0
    ensures |Lines(House(), "")| == 20
    ensures Lines(House(), "")[0] == Line("", "Casa", 75000.0)
  {
    HousePrices();
  }

  lemma FincaTotals()
    ensures Price(Finca()) == 5000.0 && Size(Finca()) == 3
  {
  }

  lemma EstructuraTotals()
    ensures Price(Estructura()) == 30000.0 && Size(Estructura()) == 4
  {
    Triple(Simple("tejado", 10000.0), Simple("alturas", 10000.0), Simple("sótano", 10000.0));
  }

  lemma InteriorTotals()
    ensures Price(Interior()) == 40000.0 && Size(Interior()) == 12
  {
    Pair(Simple("mobiliario", 20000.0), Simple("pintura", 10000.0));
    Pair(Simple("cables", 500.0), Simple("operadores", 500.0));
    Pair(Simple("caldera", 4000.0), Simple("radiadores", 2000.0));
    assert Price(Calefaccion()) == 6000.0 && Size(Calefaccion()) == 3;
    Pair(Simple("tuberías", 3000.0), Calefaccion());
    assert Price(Fontaneria()) == 9000.0 && Size(Fontaneria()) == 5;
    Triple(Habitaciones(), Electricidad(), Fontaneria());
  }

  /** Demo helpers: the price and size of a two-child and of a three-child
      list, spelled out so that the section totals above unfold in one step. */
  lemma Pair(a: Part, b: Part)
    ensures SumPrices([a, b]) == Price(a) + Price(b)
    ensures ChildSizes([a, b]) == Size(a) + Size(b)
  {
    assert [a, b][..1] == [a];
    assert [a][..0] == [];
    assert SumPrices([a]) == Price(a);
    assert ChildSizes([a]) == Size(a);
  }

  lemma Triple(a: Part, b: Part, c: Part)
    ensures SumPrices([a, b, c]) == Price(a) + Price(b) + Price(c)
    ensures ChildSizes([a, b, c]) == Size(a) + Size(b) + Size(c)
  {
    assert [a, b, c][..2] == [a, b];
    Pair(a, b);
  }
}
