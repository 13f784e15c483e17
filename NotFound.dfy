/**
 * The not-found page's terminal animation: after an initial delay the
 * command `curl https://sola.ysz.life<path>` is typed one character per
 * timeout, then, after a pause, the canned HTTP response is printed one
 * line per timeout. At any moment exactly one timeout is pending; each
 * call of `Tick` fires it.
 */
module NotFound {

  const PromptBase := "curl https://sola.ysz.life"
  const RootPrompt := "root@~/dev/null$ "

  const ResponseLines: seq<string> := [
    "",
    "HTTP/1.1 404 Not Found",
    "{",
    "  \"error\": \"Resource not found\"",
    "}"
  ]

  /** The command typed for a missing path. */
  function Prompt(pathname: string): (r: string)
    ensures |r| == |PromptBase| + |pathname|
    ensures r[..|PromptBase|] == PromptBase && r[|PromptBase|..] == pathname
  {
    PromptBase + pathname
  }

  class Terminal {
    const prompt: string
    var isInitialDelay: bool
    var typedPrompt: string
    var typedResponse: seq<string>
    /** Whether the pause after the prompt has elapsed and `typeResponseLine` has begun. */
    var responseStarted: bool
    /** The index the pending `typeResponseLine` call will append. */
    var nextLine: nat

    /**
     * The typed prompt is a prefix of the prompt; nothing is typed during the
     * delay; the response starts only after the whole prompt, and what is
     * printed is always a prefix of the response lines.
     */
    predicate Valid(): (r: bool)
      reads this
      ensures r && responseStarted ==> typedPrompt == prompt
      ensures r ==> |typedResponse| <= |ResponseLines|
    {
      && |typedPrompt| <= |prompt| && typedPrompt == prompt[..|typedPrompt|]
      && (isInitialDelay ==> typedPrompt == "")
      && (responseStarted ==> !isInitialDelay && |typedPrompt| == |prompt|)
      && nextLine <= |ResponseLines|
      && (!responseStarted ==> nextLine == 0)
      && typedResponse == ResponseLines[..nextLine]
    }

    /** Everything typed and printed: no timeout is pending any more. */
    predicate Done(): (r: bool)
      reads this
      ensures r && Valid() ==> typedPrompt == prompt && typedResponse == ResponseLines
    {
      responseStarted && nextLine == |ResponseLines|
    }

    /** How many timeouts are still to fire. */
    function Remaining(): (n: nat)
      reads this
      requires Valid()
      ensures n == 0 <==> Done()
    {
      (if isInitialDelay then 1 else 0) + (|prompt| - |typedPrompt|)
      + (if responseStarted then 0 else 1) + (|ResponseLines| - nextLine)
    }

    /** The blinking cursor follows the prompt until it is complete. */
    function CursorShown(): (b: bool)
      reads this
      requires Valid()
      ensures b <==> isInitialDelay || typedPrompt != prompt
    {
      isInitialDelay || |typedPrompt| < |prompt|
    }

    constructor (pathname: string)
      ensures Valid()
      ensures prompt == Prompt(pathname)
      ensures isInitialDelay && typedPrompt == "" && typedResponse == [] && !responseStarted
    {
      prompt := Prompt(pathname);
      isInitialDelay := true;
      typedPrompt := "";
      typedResponse := [];
      responseStarted := false;
      nextLine := 0;
    }

    /** The pending timeout fires. */
    method Tick()
      requires Valid()
      modifies this
      ensures Valid()
      ensures old(Done()) ==> Remaining() == 0
      ensures !old(Done()) ==> Remaining() == old(Remaining()) - 1
      ensures old(isInitialDelay) ==> !isInitialDelay && typedPrompt == "" && !responseStarted
      ensures !old(isInitialDelay) && old(|typedPrompt|) < |prompt| ==>
                typedPrompt == old(typedPrompt) + [prompt[old(|typedPrompt|)]] && !responseStarted
      ensures old(responseStarted) && !old(Done()) ==>
                typedResponse == old(typedResponse) + [ResponseLines[old(nextLine)]]
      ensures typedResponse != old(typedResponse) ==> typedPrompt == prompt
    {
      if isInitialDelay {
        isInitialDelay := false;
      } else if |typedPrompt| < |prompt| {
        typedPrompt := typedPrompt + [prompt[|typedPrompt|]];
      } else if !responseStarted {
        responseStarted := true;
      } else if nextLine < |ResponseLines| {
        typedResponse := typedResponse + [ResponseLines[nextLine]];
        nextLine := nextLine + 1;
      }
    }
  }

  // ---------------------------------------------------------------- lemmas

  /** Once done, the typed prompt is the whole prompt and the printed lines are all the response lines. */
  lemma DoneMeansComplete(t: Terminal)
    requires t.Valid() && t.Done()
    ensures t.typedPrompt == t.prompt
    ensures t.typedResponse == ResponseLines
    ensures !t.CursorShown()
  {
  }

  /**
   * A fresh terminal needs one timeout for the delay, one per prompt
   * character, one for the pause and one per response line; since each tick
   * fires exactly one of them, it is done after exactly that many ticks.
   */
  lemma FreshTerminalTimeouts(t: Terminal)
    requires t.Valid() && t.isInitialDelay && !t.responseStarted
    ensures t.Remaining() == |t.prompt| + 2 + |ResponseLines|
  {
  }
}
