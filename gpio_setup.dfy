/**
 * The table-driven pin set-up of start.c: m1_pd_bmc_gpio_setup_one turns one
 * gpio_pin_config entry into GPIO calls, m1_pd_bmc_system_init applies it to the
 * entries of a port's table in index order. The calls are values (GpioOp); a
 * pin-state view (Apply) gives them a meaning, and the lemmas say that after the
 * set-up every entry's pin is configured as the entry says.
 */
module GpioSetup {
  import opened Wrappers

  /** The gpio_function values the tables use. */
  datatype GpioFunction = Uart | I2c | Sio

  /** gpio_pin_config. Fields the tables leave out are zero: dir is GPIO_IN
    * (false), pu, skip and level are false. */
  datatype PinConfig = PinConfig(pin: nat, mode: GpioFunction, out: bool, pu: bool, skip: bool, level: bool)

  /** The GPIO calls the set-up makes. */
  datatype GpioOp =
    | SetFunction(pin: nat, func: GpioFunction)   // gpio_set_function
    | Init(pin: nat)                              // gpio_init
    | SetDir(pin: nat, out: bool)                 // gpio_set_dir
    | Put(pin: nat, level: bool)                  // gpio_put
    | PullUp(pin: nat)                            // gpio_pull_up

  /** m1_pd_bmc_gpio_setup_one */
  function SetupOne(cfg: PinConfig): (ops: seq<GpioOp>)
    ensures cfg.skip ==> ops == []
    ensures forall i :: 0 <= i < |ops| ==> ops[i].pin == cfg.pin
  {
    if cfg.skip then []
    else
      [SetFunction(cfg.pin, cfg.mode)]
      + (if cfg.mode == Sio then
           [Init(cfg.pin), SetDir(cfg.pin, cfg.out)] + (if cfg.out then [Put(cfg.pin, cfg.level)] else [])
         else [])
      + (if cfg.pu then [PullUp(cfg.pin)] else [])
  }

  /** The calls of m1_pd_bmc_system_init for a table: each entry's, in index order. */
  function InitOps(pins: seq<PinConfig>): seq<GpioOp>
  {
    if pins == [] then [] else InitOps(pins[..|pins| - 1]) + SetupOne(pins[|pins| - 1])
  }

  /** The pin loop of m1_pd_bmc_system_init. */
  method SystemInit(pins: seq<PinConfig>) returns (ops: seq<GpioOp>)
    ensures ops == InitOps(pins)
  {
    ops := [];
    var i := 0;
    while i < |pins|
      invariant 0 <= i <= |pins|
      invariant ops == InitOps(pins[..i])
    {
      assert pins[..i + 1][..i] == pins[..i];
      ops := ops + SetupOne(pins[i]);
      i := i + 1;
    }
    assert pins[..i] == pins;
  }

  // ---------------------------------------------------------------------
  // What the calls leave on a pin

  /** The settings a pin has received: its function, whether gpio_init ran, the
    * direction and level set, and the pull-up. None: never set. */
  datatype PinState = PinState(func: Option<GpioFunction>, inited: bool, out: Option<bool>,
                               level: Option<bool>, pullUp: bool)

  const Untouched := PinState(None, false, None, None, false)

  function Get(st: map<nat, PinState>, pin: nat): PinState
  {
    if pin in st then st[pin] else Untouched
  }

  function Apply(st: map<nat, PinState>, op: GpioOp): map<nat, PinState>
  {
    var p := Get(st, op.pin);
    st[op.pin := match op
      case SetFunction(_, f) => p.(func := Some(f))
      case Init(_) => p.(inited := true)
      case SetDir(_, o) => p.(out := Some(o))
      case Put(_, l) => p.(level := Some(l))
      case PullUp(_) => p.(pullUp := true)]
  }

  function ApplyAll(st: map<nat, PinState>, ops: seq<GpioOp>): map<nat, PinState>
    decreases |ops|
  {
    if ops == [] then st else Apply(ApplyAll(st, ops[..|ops| - 1]), ops[|ops| - 1])
  }

  /** The state an entry asks for: its function; for an SIO pin, gpio_init and the
    * direction; for an SIO output, the level; the pull-up when pu is set. */
  function Configured(cfg: PinConfig): PinState
  {
    var sio := cfg.mode == Sio;
    PinState(Some(cfg.mode), sio, if sio then Some(cfg.out) else None,
             if sio && cfg.out then Some(cfg.level) else None, cfg.pu)
  }

  lemma {:induction false} ApplyAllAppend(st: map<nat, PinState>, a: seq<GpioOp>, b: seq<GpioOp>)
    ensures ApplyAll(st, a + b) == ApplyAll(ApplyAll(st, a), b)
    decreases |b|
  {
    if b == [] {
      assert a + b == a;
    } else {
      assert (a + b)[..|a + b| - 1] == a + b[..|b| - 1];
      ApplyAllAppend(st, a, b[..|b| - 1]);
    }
  }

  /** Calls on other pins leave a pin as it was. */
  lemma {:induction false} ApplyAllOther(st: map<nat, PinState>, ops: seq<GpioOp>, pin: nat)
    requires forall i :: 0 <= i < |ops| ==> ops[i].pin != pin
    ensures Get(ApplyAll(st, ops), pin) == Get(st, pin)
    decreases |ops|
  {
    if ops != [] {
      ApplyAllOther(st, ops[..|ops| - 1], pin);
    }
  }

  /** A skipped entry changes no pin; any other entry leaves its own pin, if it was
    * untouched, exactly as the entry asks, and no other pin changes. */
  lemma SetupOneConfigures(st: map<nat, PinState>, cfg: PinConfig)
    requires Get(st, cfg.pin) == Untouched
    ensures cfg.skip ==> ApplyAll(st, SetupOne(cfg)) == st
    ensures !cfg.skip ==> Get(ApplyAll(st, SetupOne(cfg)), cfg.pin) == Configured(cfg)
    ensures forall q :: q != cfg.pin ==> Get(ApplyAll(st, SetupOne(cfg)), q) == Get(st, q)
  {
    forall q | q != cfg.pin
      ensures Get(ApplyAll(st, SetupOne(cfg)), q) == Get(st, q)
    {
      ApplyAllOther(st, SetupOne(cfg), q);
    }
    if !cfg.skip {
      SetupOneOwnPin(st, cfg);
    }
  }

  /** An entry's own calls leave its untouched pin as the entry asks. */
  lemma SetupOneOwnPin(st: map<nat, PinState>, cfg: PinConfig)
    requires Get(st, cfg.pin) == Untouched && !cfg.skip
    ensures Get(ApplyAll(st, SetupOne(cfg)), cfg.pin) == Configured(cfg)
  {
    var p := cfg.pin;
    var ops := [SetFunction(p, cfg.mode)];
    ApplyLast(st, [], SetFunction(p, cfg.mode));
    assert [] + ops == ops;
    var want := Untouched.(func := Some(cfg.mode));
    assert Get(ApplyAll(st, ops), p) == want;
    if cfg.mode == Sio {
      ApplyLast(st, ops, Init(p));
      ops, want := ops + [Init(p)], want.(inited := true);
      ApplyLast(st, ops, SetDir(p, cfg.out));
      ops, want := ops + [SetDir(p, cfg.out)], want.(out := Some(cfg.out));
      if cfg.out {
        ApplyLast(st, ops, Put(p, cfg.level));
        ops, want := ops + [Put(p, cfg.level)], want.(level := Some(cfg.level));
      }
    }
    if cfg.pu {
      ApplyLast(st, ops, PullUp(p));
      ops, want := ops + [PullUp(p)], want.(pullUp := true);
    }
    assert ops == SetupOne(cfg);
    assert want == Configured(cfg);
  }

  /** One more call is one more step. */
  lemma ApplyLast(st: map<nat, PinState>, ops: seq<GpioOp>, op: GpioOp)
    ensures ApplyAll(st, ops + [op]) == Apply(ApplyAll(st, ops), op)
  {
    assert (ops + [op])[..|ops|] == ops;
  }

  /** Whether the entries name distinct pins. */
  predicate DistinctPins(pins: seq<PinConfig>)
  {
    forall i, j :: 0 <= i < j < |pins| ==> pins[i].pin != pins[j].pin
  }

  /** From untouched pins, the set-up of a table whose entries name distinct pins
    * leaves every entry's pin as the entry asks, and a skipped entry's pin (like
    * any pin outside the table) untouched. */
  lemma {:induction false} SystemInitConfigures(pins: seq<PinConfig>)
    requires DistinctPins(pins)
    ensures forall i :: 0 <= i < |pins| ==>
      Get(ApplyAll(map[], InitOps(pins)), pins[i].pin) == if pins[i].skip then Untouched else Configured(pins[i])
    ensures forall q :: (forall i :: 0 <= i < |pins| ==> pins[i].pin != q) ==>
      Get(ApplyAll(map[], InitOps(pins)), q) == Untouched
    decreases |pins|
  {
    if pins != [] {
      var init, last := pins[..|pins| - 1], pins[|pins| - 1];
      SystemInitConfigures(init);
      var st := ApplyAll(map[], InitOps(init));
      assert Get(st, last.pin) == Untouched by {
        assert forall i :: 0 <= i < |init| ==> init[i].pin != last.pin;
      }
      ApplyAllAppend(map[], InitOps(init), SetupOne(last));
      SetupOneConfigures(st, last);
      forall i | 0 <= i < |pins|
        ensures Get(ApplyAll(map[], InitOps(pins)), pins[i].pin)
          == if pins[i].skip then Untouched else Configured(pins[i])
      {
        if i < |pins| - 1 {
          assert pins[i] == init[i];
        } else if last.skip {
          assert ApplyAll(st, SetupOne(last)) == st;
        }
      }
      forall q | forall i :: 0 <= i < |pins| ==> pins[i].pin != q
        ensures Get(ApplyAll(map[], InitOps(pins)), q) == Untouched
      {
        assert forall i :: 0 <= i < |init| ==> init[i].pin != q by {
          forall i | 0 <= i < |init| ensures init[i].pin != q {
            assert init[i] == pins[i];
          }
        }
        assert q != last.pin;
      }
    }
  }

  // ---------------------------------------------------------------------
  // The two boards' tables, in the order of the initialisers in start.c

  /** Port 0: LED_G, I2C_SDA, I2C_SCL, FUSB_INT, FUSB_VBUS, UART_TX, UART_RX,
    * SBU_SWAP, SEL_USB. */
  const PINS0: seq<PinConfig> := [
    PinConfig(25, Sio, true, false, false, false),
    PinConfig(16, I2c, false, false, false, false),
    PinConfig(17, I2c, false, false, false, false),
    PinConfig(18, Sio, false, false, false, false),
    PinConfig(26, Sio, false, false, false, false),
    PinConfig(12, Uart, false, false, false, false),
    PinConfig(13, Uart, false, false, false, false),
    PinConfig(20, Sio, true, false, false, false),
    PinConfig(7, Sio, true, false, false, false)
  ]

  /** Port 1: the same roles; the LED entry is marked skip. */
  const PINS1: seq<PinConfig> := [
    PinConfig(25, Sio, true, false, true, false),
    PinConfig(22, I2c, false, false, false, false),
    PinConfig(27, I2c, false, false, false, false),
    PinConfig(19, Sio, false, false, false, false),
    PinConfig(28, Sio, false, false, false, false),
    PinConfig(8, Uart, false, false, false, false),
    PinConfig(9, Uart, false, false, false, false),
    PinConfig(21, Sio, true, false, false, false),
    PinConfig(6, Sio, true, false, false, false)
  ]

  /** Port 1's set-up never touches the LED pin that port 0 drives, and leaves its
    * own SBU_SWAP and SEL_USB pins as SIO outputs driven low. */
  lemma Port1LeavesLed()
    ensures Get(ApplyAll(map[], InitOps(PINS1)), 25) == Untouched
    ensures Get(ApplyAll(map[], InitOps(PINS1)), 21) == PinState(Some(Sio), true, Some(true), Some(false), false)
    ensures Get(ApplyAll(map[], InitOps(PINS1)), 6) == PinState(Some(Sio), true, Some(true), Some(false), false)
  {
    SystemInitConfigures(PINS1);
    assert PINS1[0].pin == 25 && PINS1[0].skip;
    assert PINS1[7].pin == 21 && PINS1[8].pin == 6;
  }

  /** No entry of either table asks for a pull-up, and every output is driven low. */
  lemma TablesDriveLow()
    ensures forall i :: 0 <= i < |PINS0| ==> !PINS0[i].pu && !PINS0[i].level
    ensures forall i :: 0 <= i < |PINS1| ==> !PINS1[i].pu && !PINS1[i].level
    ensures DistinctPins(PINS0) && DistinctPins(PINS1)
  {
  }
}
