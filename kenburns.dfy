/**
 * Ken Burns motion presets for ffmpeg's zoompan filter (src/gpp/kenburns.py).
 *
 * The zoom, x and y expressions are kept as syntax trees: Show renders one as
 * the characters the source writes, and Eval gives its value for given values
 * of the variables in, iw, ih and zoom. How ffmpeg binds those variables while
 * it renders a clip is not modelled. The random draws of the source (the
 * preset and the rule-of-thirds point) are the Preset argument.
 */
module KenBurns {
  import opened Wrappers
  import opened Tokens

  /** The variables a zoompan expression may use: in, iw, ih and zoom. */
  datatype Var = In | InWidth | InHeight | Zoom

  datatype Op = Plus | Minus | Times | Over

  datatype Expr =
    | Lit(r: real)          // a Python float written into the expression
    | IntLit(n: int)        // a Python int written into the expression
    | Ref(v: Var)
    | Bin(op: Op, lhs: Expr, rhs: Expr)
    | Group(inner: Expr)    // explicit parentheses

  /** Values for the variables of an expression: in (inValue), iw, ih and zoom. */
  datatype Env = Env(inValue: real, iw: real, ih: real, zoom: real)

  function Lookup(v: Var, env: Env): real
  {
    match v
    case In => env.inValue
    case InWidth => env.iw
    case InHeight => env.ih
    case Zoom => env.zoom
  }

  /** One arithmetic step; a division by zero has no value. */
  function Apply(op: Op, a: real, b: real): (r: Option<real>)
    ensures r.None? <==> op == Over && b == 0.0
  {
    match op
    case Plus => Some(a + b)
    case Minus => Some(a - b)
    case Times => Some(a * b)
    case Over => if b == 0.0 then None else Some(a / b)
  }

  function Eval(e: Expr, env: Env): Option<real>
  {
    match e
    case Lit(r) => Some(r)
    case IntLit(n) => Some(n as real)
    case Ref(v) => Some(Lookup(v, env))
    case Bin(op, a, b) =>
      var x := Eval(a, env);
      var y := Eval(b, env);
      if x.Some? && y.Some? then Apply(op, x.value, y.value) else None
    case Group(g) => Eval(g, env)
  }

  /** Evaluating an operator node from the values of its operands. */
  lemma EvalBin(op: Op, a: Expr, b: Expr, env: Env, x: real, y: real)
    requires Eval(a, env) == Some(x) && Eval(b, env) == Some(y)
    ensures op == Plus ==> Eval(Bin(op, a, b), env) == Some(x + y)
    ensures op == Minus ==> Eval(Bin(op, a, b), env) == Some(x - y)
    ensures op == Times ==> Eval(Bin(op, a, b), env) == Some(x * y)
    ensures op == Over && y != 0.0 ==> Eval(Bin(op, a, b), env) == Some(x / y)
  {
    assert Eval(Bin(op, a, b), env) == Apply(op, x, y);
  }

  function VarName(v: Var): string
  {
    match v
    case In => "in"
    case InWidth => "iw"
    case InHeight => "ih"
    case Zoom => "zoom"
  }

  function OpChar(op: Op): char
  {
    match op
    case Plus => '+'
    case Minus => '-'
    case Times => '*'
    case Over => '/'
  }

  /** The expression as the source writes it, without added parentheses. */
  function Show(e: Expr): seq<Token>
  {
    match e
    case Lit(r) => [Num(r)]
    case IntLit(n) => [Int(n)]
    case Ref(v) => Text(VarName(v))
    case Bin(op, a, b) => Show(a) + [Chr(OpChar(op))] + Show(b)
    case Group(g) => [Chr('(')] + Show(g) + [Chr(')')]
  }

  /** The only characters a rendered expression can contain. */
  predicate ExprChar(c: char)
  {
    c in "()+-*/inwhzom"
  }

  lemma {:induction false} ShowAlphabet(e: Expr)
    ensures forall t :: t in Show(e) && t.Chr? ==> ExprChar(t.c)
  {
    match e
    case Lit(_) =>
    case IntLit(_) =>
    case Ref(v) =>
      forall t | t in Show(e) && t.Chr?
        ensures ExprChar(t.c)
      {
        var i :| 0 <= i < |Show(e)| && Show(e)[i] == t;
        assert t.c == VarName(v)[i];
      }
    case Bin(_, a, b) =>
      ShowAlphabet(a);
      ShowAlphabet(b);
    case Group(g) =>
      ShowAlphabet(g);
  }

  /** No separator of the filter syntax (':', ',', ';', '=', quote) occurs in an expression. */
  lemma ShowAvoids(e: Expr, c: char)
    requires !ExprChar(c)
    ensures Chr(c) !in Show(e)
  {
    ShowAlphabet(e);
  }

  function Precedence(op: Op): nat
  {
    match op
    case Plus => 1
    case Minus => 1
    case Times => 2
    case Over => 2
  }

  /**
   * The rendered form reads back as this tree under the usual precedence
   * (* and / before + and -), left to right: a left operand binds at least
   * as tightly as its operator, a right operand strictly tighter, and
   * literals are not negative (so that no '-' is mistaken for a sign).
   */
  predicate Unambiguous(e: Expr)
  {
    match e
    case Lit(r) => r >= 0.0
    case IntLit(n) => n >= 0
    case Ref(_) => true
    case Bin(op, a, b) =>
      (a.Bin? ==> Precedence(a.op) >= Precedence(op)) &&
      (b.Bin? ==> Precedence(b.op) > Precedence(op)) &&
      Unambiguous(a) && Unambiguous(b)
    case Group(g) => Unambiguous(g)
  }

  /** A rule-of-thirds coordinate, drawn at random: one third or two thirds. */
  datatype Third = OneThird | TwoThirds

  function Fraction(t: Third): (r: real)
    ensures r == 1.0 / 3.0 || r == 2.0 / 3.0
  {
    match t
    case OneThird => 1.0 / 3.0
    case TwoThirds => 2.0 / 3.0
  }

  /** The five presets get_zoompan_filter draws from. */
  datatype Preset =
    | ZoomInCenter
    | ZoomInThird(tx: Third, ty: Third)
    | ZoomOut
    | PanLeftToRight
    | PanRightToLeft

  const ZoomAmount: real := 0.15
  const PanZoomAmount: real := 0.05
  const DefaultWidth: int := 1920
  const DefaultHeight: int := 1080

  /** Python's int() on a float: truncation toward zero. */
  function Truncate(x: real): (r: int)
    ensures x >= 0.0 ==> 0 <= r && r as real <= x < r as real + 1.0
    ensures x < 0.0 ==> r <= 0 && r as real - 1.0 < x <= r as real
  {
    if x >= 0.0 then x.Floor else -((-x).Floor)
  }

  /** total_frames: duration times fps, truncated to an integer. */
  function TotalFrames(duration: real, fps: int): (r: int)
    ensures duration * fps as real >= 0.0 ==>
              0 <= r && r as real <= duration * fps as real < r as real + 1.0
    ensures duration * fps as real < 0.0 ==>
              r <= 0 && r as real - 1.0 < duration * fps as real <= r as real
  {
    Truncate(duration * fps as real)
  }

  lemma TotalFramesExamples()
    ensures TotalFrames(6.0, 30) == 180
    ensures TotalFrames(0.01, 1) == 0
  {
  }

  datatype Motion = Motion(z: Expr, x: Expr, y: Expr)

  /** (in/T): in over total_frames, 0 at in = 0 and 1 at in = total_frames. */
  function Progress(frames: int): Expr
  {
    Group(Bin(Over, Ref(In), IntLit(frames)))
  }

  /** 1.0+a*(in/T) */
  function ZoomRamp(amount: real, frames: int): Expr
  {
    Bin(Plus, Lit(1.0), Bin(Times, Lit(amount), Progress(frames)))
  }

  /** {1.0+a}-a*(in/T) */
  function ZoomBack(amount: real, frames: int): Expr
  {
    Bin(Minus, Lit(1.0 + amount), Bin(Times, Lit(amount), Progress(frames)))
  }

  /** (iw/zoom/2): half the width (or height) of the visible window. */
  function HalfWindow(v: Var): Expr
  {
    Group(Bin(Over, Bin(Over, Ref(v), Ref(Zoom)), IntLit(2)))
  }

  /** iw/2-(iw/zoom/2) */
  function Centered(v: Var): Expr
  {
    Bin(Minus, Bin(Over, Ref(v), IntLit(2)), HalfWindow(v))
  }

  /** iw*t-(iw/zoom/2) */
  function AtThird(v: Var, t: Third): Expr
  {
    Bin(Minus, Bin(Times, Ref(v), Lit(Fraction(t))), HalfWindow(v))
  }

  /** (iw-iw/zoom): how far the window can move. */
  function Slack(v: Var): Expr
  {
    Group(Bin(Minus, Ref(v), Bin(Over, Ref(v), Ref(Zoom))))
  }

  /** (iw-iw/zoom)*(in/T) */
  function PanForward(frames: int): Expr
  {
    Bin(Times, Slack(InWidth), Progress(frames))
  }

  /** (iw-iw/zoom)*(1-in/T) */
  function PanBackward(frames: int): Expr
  {
    Bin(Times, Slack(InWidth), Group(Bin(Minus, IntLit(1), Bin(Over, Ref(In), IntLit(frames)))))
  }

  /** The z/x/y triple of each preset (kenburns.py, the if/elif chain). */
  function MotionOf(preset: Preset, frames: int): Motion
  {
    match preset
    case ZoomInCenter => Motion(ZoomRamp(ZoomAmount, frames), Centered(InWidth), Centered(InHeight))
    case ZoomInThird(tx, ty) => Motion(ZoomRamp(ZoomAmount, frames), AtThird(InWidth, tx), AtThird(InHeight, ty))
    case ZoomOut => Motion(ZoomBack(ZoomAmount, frames), Centered(InWidth), Centered(InHeight))
    case PanLeftToRight => Motion(ZoomRamp(PanZoomAmount, frames), PanForward(frames), Centered(InHeight))
    case PanRightToLeft => Motion(ZoomRamp(PanZoomAmount, frames), PanBackward(frames), Centered(InHeight))
  }

  /** The option keys of the zoompan filter, in the order written. */
  const OptionKeys: seq<string> := ["z", "x", "y", "d", "s", "fps"]

  /** key=value */
  function Keyed(key: string, value: seq<Token>): seq<Token>
  {
    Text(key) + [Chr('=')] + value
  }

  /** key='expression' */
  function Quoted(key: string, e: Expr): seq<Token>
  {
    Keyed(key, [Chr('\'')] + Show(e) + [Chr('\'')])
  }

  function ZoompanOptions(m: Motion, frames: int, width: int, height: int, fps: int): seq<seq<Token>>
  {
    [ Quoted("z", m.z),
      Quoted("x", m.x),
      Quoted("y", m.y),
      Keyed("d", [Int(frames)]),
      Keyed("s", [Int(width), Chr('x'), Int(height)]),
      Keyed("fps", [Int(fps)]) ]
  }

  /** get_zoompan_filter(duration, fps, width, height), with the random draws as preset. */
  function ZoompanFilter(duration: real, fps: int, width: int, height: int, preset: Preset): seq<Token>
  {
    var frames := TotalFrames(duration, fps);
    Text("zoompan") + [Chr('=')] + Join(ZoompanOptions(MotionOf(preset, frames), frames, width, height, fps), ':')
  }

  // ---------------------------------------------------------------------
  // The filter string's structure

  /**
   * The filter is `zoompan=` followed by six ':'-separated options z, x, y,
   * d, s and fps; d carries total_frames, s is widthxheight, fps the rate,
   * and z, x, y are the preset's expressions in quotes.
   */
  lemma ZoompanFilterOptions(duration: real, fps: int, width: int, height: int, preset: Preset)
    ensures var f := ZoompanFilter(duration, fps, width, height, preset);
            var frames := TotalFrames(duration, fps);
            |f| > 8 && f[..8] == Text("zoompan=") &&
            Split(f[8..], ':') == ZoompanOptions(MotionOf(preset, frames), frames, width, height, fps)
  {
    var frames := TotalFrames(duration, fps);
    var m := MotionOf(preset, frames);
    var opts := ZoompanOptions(m, frames, width, height, fps);
    var rest := Join(opts, ':');
    var f := ZoompanFilter(duration, fps, width, height, preset);
    TextAppend("zoompan", "=");
    assert f == Text("zoompan=") + rest;
    assert |rest| > 0 by { assert rest[..|opts[0]|] == opts[0]; }
    assert f[8..] == rest;
    OptionsAvoid(m, frames, width, height, fps, ':');
    SplitJoin(opts, ':');
  }

  /**
   * Reading the filter back: splitting it at ':' recovers the quoted z, x and
   * y expressions of the preset, d=total_frames, s=widthxheight and fps=fps.
   */
  lemma ZoompanFilterFields(duration: real, fps: int, width: int, height: int, preset: Preset)
    ensures var f := ZoompanFilter(duration, fps, width, height, preset);
            var frames := TotalFrames(duration, fps);
            var m := MotionOf(preset, frames);
            var opts := Split(f[8..], ':');
            |opts| == 6 &&
            opts[0] == Text("z='") + Show(m.z) + Text("'") &&
            opts[1] == Text("x='") + Show(m.x) + Text("'") &&
            opts[2] == Text("y='") + Show(m.y) + Text("'") &&
            opts[3] == Text("d=") + [Int(frames)] &&
            opts[4] == Text("s=") + [Int(width), Chr('x'), Int(height)] &&
            opts[5] == Text("fps=") + [Int(fps)]
  {
    ZoompanFilterOptions(duration, fps, width, height, preset);
    var frames := TotalFrames(duration, fps);
    OptionFields(MotionOf(preset, frames), frames, width, height, fps);
  }

  lemma OptionFields(m: Motion, frames: int, width: int, height: int, fps: int)
    ensures var opts := ZoompanOptions(m, frames, width, height, fps);
            opts[0] == Text("z='") + Show(m.z) + Text("'") &&
            opts[1] == Text("x='") + Show(m.x) + Text("'") &&
            opts[2] == Text("y='") + Show(m.y) + Text("'") &&
            opts[3] == Text("d=") + [Int(frames)] &&
            opts[4] == Text("s=") + [Int(width), Chr('x'), Int(height)] &&
            opts[5] == Text("fps=") + [Int(fps)]
  {
    KeyedText("d", [Int(frames)]);
    KeyedText("s", [Int(width), Chr('x'), Int(height)]);
    KeyedText("fps", [Int(fps)]);
    QuotedText("z", m.z);
    QuotedText("x", m.x);
    QuotedText("y", m.y);
  }

  lemma KeyedText(key: string, value: seq<Token>)
    ensures Keyed(key, value) == Text(key + "=") + value
  {
    TextAppend(key, "=");
  }

  lemma QuotedText(key: string, e: Expr)
    ensures Quoted(key, e) == Text(key + "='") + Show(e) + Text("'")
  {
    TextAppend(key, "='");
  }

  /** Every option is named by its key: what precedes its first '='. */
  lemma ZoompanOptionKeys(m: Motion, frames: int, width: int, height: int, fps: int)
    ensures var opts := ZoompanOptions(m, frames, width, height, fps);
            |opts| == |OptionKeys| &&
            forall k :: 0 <= k < |opts| ==> StageName(opts[k]) == Text(OptionKeys[k])
  {
    var opts := ZoompanOptions(m, frames, width, height, fps);
    forall k | 0 <= k < |opts|
      ensures StageName(opts[k]) == Text(OptionKeys[k])
    {
      if k == 0 {
        StageNameOf("z", [Chr('\'')] + Show(m.z) + [Chr('\'')]);
      } else if k == 1 {
        StageNameOf("x", [Chr('\'')] + Show(m.x) + [Chr('\'')]);
      } else if k == 2 {
        StageNameOf("y", [Chr('\'')] + Show(m.y) + [Chr('\'')]);
      } else if k == 3 {
        StageNameOf("d", [Int(frames)]);
      } else if k == 4 {
        StageNameOf("s", [Int(width), Chr('x'), Int(height)]);
      } else {
        StageNameOf("fps", [Int(fps)]);
      }
    }
  }

  lemma OptionsAvoid(m: Motion, frames: int, width: int, height: int, fps: int, c: char)
    requires c == ':' || c == ','
    ensures forall k :: 0 <= k < 6 ==> Chr(c) !in ZoompanOptions(m, frames, width, height, fps)[k]
  {
    ShowAvoids(m.z, c);
    ShowAvoids(m.x, c);
    ShowAvoids(m.y, c);
    TextAvoids("z", c);
    TextAvoids("x", c);
    TextAvoids("y", c);
    TextAvoids("d", c);
    TextAvoids("s", c);
    TextAvoids("fps", c);
  }

  /** The zoompan filter holds no ',' and so is one stage of a filter chain. */
  lemma ZoompanFilterIsOneStage(duration: real, fps: int, width: int, height: int, preset: Preset)
    ensures var f := ZoompanFilter(duration, fps, width, height, preset);
            Chr(',') !in f && StageName(f) == Text("zoompan")
  {
    var frames := TotalFrames(duration, fps);
    var m := MotionOf(preset, frames);
    var opts := ZoompanOptions(m, frames, width, height, fps);
    OptionsAvoid(m, frames, width, height, fps, ',');
    JoinAvoids(opts, ':', ',');
    TextAvoids("zoompan", ',');
    StageNameOf("zoompan", Join(opts, ':'));
  }

  /** Every preset's expressions render unambiguously. */
  lemma MotionUnambiguous(preset: Preset, frames: int)
    requires frames >= 1
    ensures var m := MotionOf(preset, frames);
            Unambiguous(m.z) && Unambiguous(m.x) && Unambiguous(m.y)
  {
    match preset
    case ZoomInCenter =>
      ZoomUnambiguous(ZoomAmount, frames);
      CenteredUnambiguous(InWidth);
      CenteredUnambiguous(InHeight);
    case ZoomInThird(tx, ty) =>
      ZoomUnambiguous(ZoomAmount, frames);
      AtThirdUnambiguous(InWidth, tx);
      AtThirdUnambiguous(InHeight, ty);
    case ZoomOut =>
      ZoomUnambiguous(ZoomAmount, frames);
      CenteredUnambiguous(InWidth);
      CenteredUnambiguous(InHeight);
    case PanLeftToRight =>
      ZoomUnambiguous(PanZoomAmount, frames);
      PanUnambiguous(frames);
      CenteredUnambiguous(InHeight);
    case PanRightToLeft =>
      ZoomUnambiguous(PanZoomAmount, frames);
      PanUnambiguous(frames);
      CenteredUnambiguous(InHeight);
  }

  lemma ZoomUnambiguous(amount: real, frames: int)
    requires frames >= 1 && amount >= 0.0
    ensures Unambiguous(ZoomRamp(amount, frames)) && Unambiguous(ZoomBack(amount, frames))
  {
    ProgressUnambiguous(frames);
    assert Unambiguous(Bin(Times, Lit(amount), Progress(frames)));
  }

  lemma PanUnambiguous(frames: int)
    requires frames >= 1
    ensures Unambiguous(PanForward(frames)) && Unambiguous(PanBackward(frames))
  {
    ProgressUnambiguous(frames);
    assert Unambiguous(Bin(Over, Ref(InWidth), Ref(Zoom)));
    assert Unambiguous(Slack(InWidth));
    var q := Bin(Over, Ref(In), IntLit(frames));
    assert Unambiguous(q);
    assert Unambiguous(Group(Bin(Minus, IntLit(1), q)));
  }

  lemma ProgressUnambiguous(frames: int)
    requires frames >= 1
    ensures Unambiguous(Progress(frames))
  {
    assert Unambiguous(Ref(In)) && Unambiguous(IntLit(frames));
    assert Unambiguous(Bin(Over, Ref(In), IntLit(frames)));
  }

  lemma CenteredUnambiguous(v: Var)
    ensures Unambiguous(HalfWindow(v)) && Unambiguous(Centered(v))
  {
    assert Unambiguous(Bin(Over, Ref(v), Ref(Zoom)));
    assert Unambiguous(Bin(Over, Bin(Over, Ref(v), Ref(Zoom)), IntLit(2)));
    assert Unambiguous(Bin(Over, Ref(v), IntLit(2)));
  }

  lemma AtThirdUnambiguous(v: Var, t: Third)
    ensures Unambiguous(AtThird(v, t))
  {
    CenteredUnambiguous(v);
    assert Unambiguous(Lit(Fraction(t)));
    assert Unambiguous(Bin(Times, Ref(v), Lit(Fraction(t))));
  }

  // ---------------------------------------------------------------------
  // What the expressions compute

  lemma ProgressValue(frames: int, env: Env)
    requires frames >= 1
    ensures Eval(Progress(frames), env) == Some(env.inValue / frames as real)
  {
    assert Eval(Bin(Over, Ref(In), IntLit(frames)), env) == Some(env.inValue / frames as real);
  }

  /** At in = 0 the elapsed fraction is 0, at in = total_frames it is 1. */
  lemma ProgressEnds(frames: int, env: Env)
    requires frames >= 1
    ensures env.inValue == 0.0 ==> Eval(Progress(frames), env) == Some(0.0)
    ensures env.inValue == frames as real ==> Eval(Progress(frames), env) == Some(1.0)
  {
    ProgressValue(frames, env);
    var t := frames as real;
    assert t / t == 1.0;
  }

  /** 1.0+a*(in/T) evaluates to 1 + a*p when (in/T) evaluates to p. */
  lemma ZoomRampAt(amount: real, frames: int, env: Env, p: real)
    requires Eval(Progress(frames), env) == Some(p)
    ensures Eval(ZoomRamp(amount, frames), env) == Some(1.0 + amount * p)
  {
    EvalBin(Times, Lit(amount), Progress(frames), env, amount, p);
    EvalBin(Plus, Lit(1.0), Bin(Times, Lit(amount), Progress(frames)), env, 1.0, amount * p);
  }

  /** {1.0+a}-a*(in/T) evaluates to 1 + a - a*p when (in/T) evaluates to p. */
  lemma ZoomBackAt(amount: real, frames: int, env: Env, p: real)
    requires Eval(Progress(frames), env) == Some(p)
    ensures Eval(ZoomBack(amount, frames), env) == Some(1.0 + amount - amount * p)
  {
    EvalBin(Times, Lit(amount), Progress(frames), env, amount, p);
    EvalBin(Minus, Lit(1.0 + amount), Bin(Times, Lit(amount), Progress(frames)), env, 1.0 + amount, amount * p);
  }

  lemma HalfWindowValue(v: Var, env: Env)
    requires env.zoom != 0.0
    ensures Eval(HalfWindow(v), env) == Some(Lookup(v, env) / env.zoom / 2.0)
  {
    assert Eval(Bin(Over, Ref(v), Ref(Zoom)), env) == Some(Lookup(v, env) / env.zoom);
    assert Eval(Bin(Over, Bin(Over, Ref(v), Ref(Zoom)), IntLit(2)), env) == Some(Lookup(v, env) / env.zoom / 2.0);
  }

  /**
   * The centred preset places the window (of size iw/zoom) so that its
   * middle is the middle of the image.
   */
  lemma CenteredValue(v: Var, env: Env)
    requires env.zoom != 0.0
    ensures Eval(Centered(v), env).Some?
    ensures Eval(Centered(v), env).value + Lookup(v, env) / env.zoom / 2.0 == Lookup(v, env) / 2.0
  {
    HalfWindowValue(v, env);
    assert Eval(Bin(Over, Ref(v), IntLit(2)), env) == Some(Lookup(v, env) / 2.0);
  }

  /** The thirds preset centres the window on the point at fraction t of the image. */
  lemma AtThirdValue(v: Var, t: Third, env: Env)
    requires env.zoom != 0.0
    ensures Eval(AtThird(v, t), env).Some?
    ensures Eval(AtThird(v, t), env).value + Lookup(v, env) / env.zoom / 2.0 == Lookup(v, env) * Fraction(t)
  {
    HalfWindowValue(v, env);
    assert Eval(Bin(Times, Ref(v), Lit(Fraction(t))), env) == Some(Lookup(v, env) * Fraction(t));
  }

  /**
   * Where each preset keeps the middle of its window (of size iw/zoom by
   * ih/zoom): the image centre for the zoom presets, the chosen thirds point
   * for zoom_in_third, and the vertical centre for the pans.
   */
  lemma WindowMiddle(preset: Preset, frames: int, env: Env)
    requires frames >= 1 && env.zoom != 0.0
    ensures var m := MotionOf(preset, frames);
            var x := Eval(m.x, env);
            var y := Eval(m.y, env);
            x.Some? && y.Some? &&
            match preset
            case ZoomInCenter => x.value + env.iw / env.zoom / 2.0 == env.iw / 2.0 &&
                                 y.value + env.ih / env.zoom / 2.0 == env.ih / 2.0
            case ZoomOut => x.value + env.iw / env.zoom / 2.0 == env.iw / 2.0 &&
                            y.value + env.ih / env.zoom / 2.0 == env.ih / 2.0
            case ZoomInThird(tx, ty) => x.value + env.iw / env.zoom / 2.0 == env.iw * Fraction(tx) &&
                                        y.value + env.ih / env.zoom / 2.0 == env.ih * Fraction(ty)
            case PanLeftToRight => y.value + env.ih / env.zoom / 2.0 == env.ih / 2.0
            case PanRightToLeft => y.value + env.ih / env.zoom / 2.0 == env.ih / 2.0
  {
    match preset
    case ZoomInCenter =>
      CenteredValue(InWidth, env);
      CenteredValue(InHeight, env);
    case ZoomOut =>
      CenteredValue(InWidth, env);
      CenteredValue(InHeight, env);
    case ZoomInThird(tx, ty) =>
      AtThirdValue(InWidth, tx, env);
      AtThirdValue(InHeight, ty, env);
    case PanLeftToRight =>
      PanMirror(frames, env);
      CenteredValue(InHeight, env);
    case PanRightToLeft =>
      PanMirror(frames, env);
      CenteredValue(InHeight, env);
  }

  lemma SlackValue(env: Env)
    requires env.zoom != 0.0
    ensures Eval(Slack(InWidth), env) == Some(env.iw - env.iw / env.zoom)
  {
    var w := Bin(Over, Ref(InWidth), Ref(Zoom));
    EvalBin(Over, Ref(InWidth), Ref(Zoom), env, env.iw, env.zoom);
    EvalBin(Minus, Ref(InWidth), w, env, env.iw, env.iw / env.zoom);
    assert Eval(Slack(InWidth), env) == Eval(Bin(Minus, Ref(InWidth), w), env);
  }

  /** (iw-iw/zoom)*(in/T) evaluates to (iw - iw/zoom) * p when (in/T) evaluates to p. */
  lemma PanForwardAt(frames: int, env: Env, p: real)
    requires env.zoom != 0.0
    requires Eval(Progress(frames), env) == Some(p)
    ensures Eval(PanForward(frames), env).Some?
    ensures Eval(PanForward(frames), env).value == (env.iw - env.iw / env.zoom) * p
  {
    SlackValue(env);
    EvalBin(Times, Slack(InWidth), Progress(frames), env, env.iw - env.iw / env.zoom, p);
  }

  /** (iw-iw/zoom)*(1-in/T) evaluates to (iw - iw/zoom) * (1 - p) when (in/T) evaluates to p. */
  lemma PanBackwardAt(frames: int, env: Env, p: real)
    requires env.zoom != 0.0
    requires Eval(Progress(frames), env) == Some(p)
    ensures Eval(PanBackward(frames), env).Some?
    ensures Eval(PanBackward(frames), env).value == (env.iw - env.iw / env.zoom) * (1.0 - p)
  {
    SlackValue(env);
    var q := Bin(Over, Ref(In), IntLit(frames));
    assert Eval(q, env) == Some(p);
    EvalBin(Minus, IntLit(1), q, env, 1.0, p);
    var back := Bin(Minus, IntLit(1), q);
    EvalBin(Times, Slack(InWidth), Group(back), env, env.iw - env.iw / env.zoom, 1.0 - p);
  }

  /** The zoom of each preset at in = 0 and at in = total_frames. */
  lemma ZoomEndpoints(preset: Preset, frames: int, iw: real, ih: real, zoom: real)
    requires frames >= 1
    ensures var z := MotionOf(preset, frames).z;
            var start := Eval(z, Env(0.0, iw, ih, zoom));
            var end := Eval(z, Env(frames as real, iw, ih, zoom));
            match preset
            case ZoomInCenter => start == Some(1.0) && end == Some(1.15)
            case ZoomInThird(_, _) => start == Some(1.0) && end == Some(1.15)
            case ZoomOut => start == Some(1.15) && end == Some(1.0)
            case PanLeftToRight => start == Some(1.0) && end == Some(1.05)
            case PanRightToLeft => start == Some(1.0) && end == Some(1.05)
  {
    var e0 := Env(0.0, iw, ih, zoom);
    var e1 := Env(frames as real, iw, ih, zoom);
    ProgressEnds(frames, e0);
    ProgressEnds(frames, e1);
    match preset
    case ZoomOut =>
      ZoomBackAt(ZoomAmount, frames, e0, 0.0);
      ZoomBackAt(ZoomAmount, frames, e1, 1.0);
    case ZoomInCenter =>
      ZoomRampAt(ZoomAmount, frames, e0, 0.0);
      ZoomRampAt(ZoomAmount, frames, e1, 1.0);
    case ZoomInThird(_, _) =>
      ZoomRampAt(ZoomAmount, frames, e0, 0.0);
      ZoomRampAt(ZoomAmount, frames, e1, 1.0);
    case PanLeftToRight =>
      ZoomRampAt(PanZoomAmount, frames, e0, 0.0);
      ZoomRampAt(PanZoomAmount, frames, e1, 1.0);
    case PanRightToLeft =>
      ZoomRampAt(PanZoomAmount, frames, e0, 0.0);
      ZoomRampAt(PanZoomAmount, frames, e1, 1.0);
  }

  /**
   * For 0 <= in <= total_frames the zoom-in and pan zooms grow with in and the
   * zoom-out zoom shrinks, and every zoom stays between 1 and 1 + amplitude.
   */
  lemma ZoomMonotone(preset: Preset, frames: int, a: real, b: real, iw: real, ih: real, zoom: real)
    requires frames >= 1
    requires 0.0 <= a <= b <= frames as real
    ensures var z := MotionOf(preset, frames).z;
            var za := Eval(z, Env(a, iw, ih, zoom));
            var zb := Eval(z, Env(b, iw, ih, zoom));
            var amp := if preset.PanLeftToRight? || preset.PanRightToLeft? then PanZoomAmount else ZoomAmount;
            za.Some? && zb.Some? &&
            1.0 <= za.value <= 1.0 + amp && 1.0 <= zb.value <= 1.0 + amp &&
            (if preset.ZoomOut? then zb.value <= za.value else za.value <= zb.value)
  {
    var ea := Env(a, iw, ih, zoom);
    var eb := Env(b, iw, ih, zoom);
    var t := frames as real;
    var pa, pb := a / t, b / t;
    FractionBetween(a, b, t);
    ProgressValue(frames, ea);
    ProgressValue(frames, eb);
    match preset
    case ZoomOut =>
      ZoomBackAt(ZoomAmount, frames, ea, pa);
      ZoomBackAt(ZoomAmount, frames, eb, pb);
    case ZoomInCenter =>
      ZoomRampAt(ZoomAmount, frames, ea, pa);
      ZoomRampAt(ZoomAmount, frames, eb, pb);
    case ZoomInThird(_, _) =>
      ZoomRampAt(ZoomAmount, frames, ea, pa);
      ZoomRampAt(ZoomAmount, frames, eb, pb);
    case PanLeftToRight =>
      ZoomRampAt(PanZoomAmount, frames, ea, pa);
      ZoomRampAt(PanZoomAmount, frames, eb, pb);
    case PanRightToLeft =>
      ZoomRampAt(PanZoomAmount, frames, ea, pa);
      ZoomRampAt(PanZoomAmount, frames, eb, pb);
  }

  lemma FractionBetween(a: real, b: real, t: real)
    requires 0.0 <= a <= b <= t && t > 0.0
    ensures 0.0 <= a / t <= b / t <= 1.0
  {
    assert a / t * t == a && b / t * t == b;
  }

  /**
   * The horizontal pans: pan_lr moves x from 0 at in = 0 to iw - iw/zoom at
   * in = total_frames, pan_rl the other way round.
   */
  lemma PanEndpoints(frames: int, iw: real, ih: real, zoom: real)
    requires frames >= 1 && zoom != 0.0
    ensures Eval(MotionOf(PanLeftToRight, frames).x, Env(0.0, iw, ih, zoom)) == Some(0.0)
    ensures Eval(MotionOf(PanLeftToRight, frames).x, Env(frames as real, iw, ih, zoom)) == Some(iw - iw / zoom)
    ensures Eval(MotionOf(PanRightToLeft, frames).x, Env(0.0, iw, ih, zoom)) == Some(iw - iw / zoom)
    ensures Eval(MotionOf(PanRightToLeft, frames).x, Env(frames as real, iw, ih, zoom)) == Some(0.0)
  {
    var e0 := Env(0.0, iw, ih, zoom);
    var e1 := Env(frames as real, iw, ih, zoom);
    ProgressEnds(frames, e0);
    ProgressEnds(frames, e1);
    PanForwardAt(frames, e0, 0.0);
    PanForwardAt(frames, e1, 1.0);
    PanBackwardAt(frames, e0, 0.0);
    PanBackwardAt(frames, e1, 1.0);
  }

  /** At the same instant the two pans are mirror images: their x values add up to iw - iw/zoom. */
  lemma PanMirror(frames: int, env: Env)
    requires frames >= 1 && env.zoom != 0.0
    ensures Eval(PanForward(frames), env).Some? && Eval(PanBackward(frames), env).Some?
    ensures Eval(PanForward(frames), env).value + Eval(PanBackward(frames), env).value == env.iw - env.iw / env.zoom
  {
    var p := env.inValue / frames as real;
    ProgressValue(frames, env);
    PanForwardAt(frames, env, p);
    PanBackwardAt(frames, env, p);
    var w := env.iw - env.iw / env.zoom;
    assert w * p + w * (1.0 - p) == w;
  }
}
