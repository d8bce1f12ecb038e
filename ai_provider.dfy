/** The language-model move source (`backend/src/services/ai-provider.service.ts`) without its
    HTTP calls: the API keys, the model dispatch that answers null on every failure, the
    parsing of the reply into a move, and the temperature and availability tables. */
module AIProvider {
  import opened Types
  import opened Text
  import opened ChessEngine

  /** The two keys, trimmed once when the service is built. */
  datatype ProviderKeys = ProviderKeys(openai: string, gemini: string)

  /** The constructor: `(process.env.X || '').trim()` for both keys; a missing variable is
      `None`. */
  function LoadKeys(openaiEnv: Option<string>, geminiEnv: Option<string>): (k: ProviderKeys)
    ensures k.openai == Trim(openaiEnv.GetOr("")) && k.gemini == Trim(geminiEnv.GetOr(""))
    ensures Trimmed(k.openai) && Trimmed(k.gemini)
  {
    var o := Trim(openaiEnv.GetOr(""));
    var g := Trim(geminiEnv.GetOr(""));
    TrimBothEnds(openaiEnv.GetOr(""));
    TrimBothEnds(geminiEnv.GetOr(""));
    ProviderKeys(o, g)
  }

  /** Trim leaves no whitespace at either end. */
  lemma TrimBothEnds(s: string)
    ensures Trimmed(Trim(s))
  {
    var t := TrimStart(s);
    if Trim(s) != [] {
      assert Trim(s)[0] == t[0];
    }
  }

  // ---------------------------------------------------------------- parsing the reply

  /** The characters `/[^a-h0-8]/g` keeps. */
  predicate KeptAsWritten(c: char) {
    'a' <= c <= 'h' || '0' <= c <= '8'
  }

  /** The characters the filter evidently meant to keep: also the promotion letters q, r, n
      (b is already a file letter). */
  predicate KeptIntended(c: char) {
    KeptAsWritten(c) || c == 'q' || c == 'r' || c == 'n'
  }

  function KeepAsWritten(s: string): (r: string)
    ensures |r| <= |s|
    ensures forall i :: 0 <= i < |r| ==> KeptAsWritten(r[i])
    ensures (forall i :: 0 <= i < |s| ==> KeptAsWritten(s[i])) ==> r == s
  {
    if s == [] then [] else (if KeptAsWritten(s[0]) then [s[0]] else []) + KeepAsWritten(s[1..])
  }

  function KeepIntended(s: string): (r: string)
    ensures |r| <= |s|
    ensures forall i :: 0 <= i < |r| ==> KeptIntended(r[i])
    ensures (forall i :: 0 <= i < |s| ==> KeptIntended(s[i])) ==> r == s
  {
    if s == [] then [] else (if KeptIntended(s[0]) then [s[0]] else []) + KeepIntended(s[1..])
  }

  /** `/^[a-h][1-8][a-h][1-8][qrbn]?$/.test(t)`. */
  predicate MatchesUci(t: string) {
    && (|t| == 4 || |t| == 5)
    && IsValidSquare(t[..2]) && IsValidSquare(t[2..4])
    && (|t| == 5 ==> IsPromotionLetter(t[4]))
  }

  /** The body of `parseUCIMove` after the filter: fewer than 4 characters is null; `from` and
      `to` are the first two pairs; the promotion is the fifth character only when exactly 5
      are left; the shape is then checked. */
  function ParseCleaned(cleaned: string): (r: Option<AIMove>)
    ensures |cleaned| < 4 ==> r == None
    ensures r.Some? ==> |cleaned| >= 4 && r.value.from == cleaned[..2] && r.value.to == cleaned[2..4]
    ensures r.Some? ==> IsValidSquare(r.value.from) && IsValidSquare(r.value.to)
    ensures r.Some? ==> (r.value.promotion.Some? <==> |cleaned| == 5)
    ensures r.Some? && r.value.promotion.Some? ==> r.value.promotion.value == [cleaned[4]] && IsPromotionLetter(cleaned[4])
    ensures |cleaned| >= 4 && |cleaned| != 5 && IsValidSquare(cleaned[..2]) && IsValidSquare(cleaned[2..4]) ==>
      r == Some(AIMove(cleaned[..2], cleaned[2..4], None))
    ensures |cleaned| == 5 && MatchesUci(cleaned) ==> r == Some(AIMove(cleaned[..2], cleaned[2..4], Some([cleaned[4]])))
  {
    if |cleaned| < 4 then None
    else
      var from := cleaned[..2];
      var to := cleaned[2..4];
      var promotion := if |cleaned| == 5 then Some([cleaned[4]]) else None;
      var text := from + to + promotion.GetOr("");
      assert text[..2] == from && text[2..4] == to;
      if !MatchesUci(text) then None else Some(AIMove(from, to, promotion))
  }

  /** `parseUCIMove` as written: lower-case, drop everything outside `[a-h0-8]`, parse. */
  function ParseUCIMove(text: string): (r: Option<AIMove>)
    ensures r.Some? ==> IsValidSquare(r.value.from) && IsValidSquare(r.value.to)
    ensures r.Some? && r.value.promotion.Some? ==> r.value.promotion.value == "b"
  {
    var cleaned := KeepAsWritten(ToLower(text));
    ParseCleaned(cleaned)
  }

  /** `parseUCIMove` with the filter that keeps the promotion letters. */
  function ParseUCIMoveFixed(text: string): (r: Option<AIMove>)
    ensures r.Some? ==> IsValidSquare(r.value.from) && IsValidSquare(r.value.to)
    ensures r.Some? && r.value.promotion.Some? ==> |r.value.promotion.value| == 1 && IsPromotionLetter(r.value.promotion.value[0])
  {
    ParseCleaned(KeepIntended(ToLower(text)))
  }

  /** A well-formed lower-case UCI move text: two square names and an optional promotion. */
  predicate IsUciText(u: string) {
    MatchesUci(u)
  }

  lemma UciTextLowerAndKept(u: string)
    requires IsUciText(u)
    ensures ToLower(u) == u
    ensures forall i :: 0 <= i < |u| ==> KeptIntended(u[i])
  {
    assert forall i :: 0 <= i < |u| ==> !('A' <= u[i] <= 'Z') by {
      forall i | 0 <= i < |u| ensures !('A' <= u[i] <= 'Z') {
        if i < 2 {
          assert u[i] == u[..2][i];
        } else if i < 4 {
          assert u[i] == u[2..4][i - 2];
        }
      }
    }
    forall i | 0 <= i < |u| ensures KeptIntended(u[i]) {
      if i < 2 {
        assert u[i] == u[..2][i];
      } else if i < 4 {
        assert u[i] == u[2..4][i - 2];
      }
    }
  }

  /** With the intended filter, every well-formed UCI text parses to exactly the move it
      spells, promotion included. */
  lemma {:induction false} FixedParsesUci(u: string)
    requires IsUciText(u)
    ensures ParseUCIMoveFixed(u) == Some(AIMove(u[..2], u[2..4], if |u| == 5 then Some([u[4]]) else None))
    ensures UciText(ParseUCIMoveFixed(u).value) == u
  {
    UciTextLowerAndKept(u);
    assert ToLower(u) == u;
    assert KeepIntended(u) == u;
    assert ParseUCIMoveFixed(u) == ParseCleaned(u);
    if |u| == 5 {
      assert ParseCleaned(u) == Some(AIMove(u[..2], u[2..4], Some([u[4]])));
      assert u[..2] + u[2..4] + [u[4]] == u;
    } else {
      assert ParseCleaned(u) == Some(AIMove(u[..2], u[2..4], None));
      assert u[..2] + u[2..4] == u;
    }
  }

  /** As written, a queen, rook or knight promotion is silently dropped: the filter removes
      the letter, four characters remain, and the move parses without a promotion. */
  lemma AsWrittenDropsPromotion(u: string)
    requires IsUciText(u) && |u| == 5 && u[4] != 'b'
    ensures ParseUCIMove(u) == Some(AIMove(u[..2], u[2..4], None))
  {
    UciTextLowerAndKept(u);
    var kept := KeepAsWritten(u);
    assert u == u[..4] + [u[4]];
    KeepAsWrittenSplit(u[..4], [u[4]]);
    assert forall i :: 0 <= i < 4 ==> u[..4][i] == u[i];
    assert KeepAsWritten(u[..4]) == u[..4];
    assert KeepAsWritten([u[4]]) == [];
    assert kept == u[..4];
    assert kept[..2] == u[..2] && kept[2..4] == u[2..4];
  }

  lemma {:induction false} KeepAsWrittenSplit(a: string, b: string)
    ensures KeepAsWritten(a + b) == KeepAsWritten(a) + KeepAsWritten(b)
  {
    if a == [] {
      assert a + b == b;
    } else {
      assert (a + b)[0] == a[0];
      assert (a + b)[1..] == a[1..] + b;
      KeepAsWrittenSplit(a[1..], b);
    }
  }

  /** The concrete case: "e7e8q" (pawn promotes to a queen) parses as e7 to e8 with no
      promotion. */
  lemma QueenPromotionLost()
    ensures ParseUCIMove("e7e8q") == Some(AIMove("e7", "e8", None))
    ensures ParseUCIMoveFixed("e7e8q") == Some(AIMove("e7", "e8", Some("q")))
  {
    assert IsValidSquare("e7") && IsValidSquare("e8");
    assert "e7e8q"[..2] == "e7" && "e7e8q"[2..4] == "e8";
    assert IsUciText("e7e8q");
    AsWrittenDropsPromotion("e7e8q");
    FixedParsesUci("e7e8q");
  }

  // ---------------------------------------------------------------- tables

  /** `getTemperature` in tenths: 1.0, 0.7, 0.4, 0.1. */
  function TemperatureTenths(level: Level): (t: nat)
    ensures 1 <= t <= 10
    ensures t == 10 - 3 * LevelRank(level)
  {
    match level
    case Beginner => 10
    case Intermediate => 7
    case Advanced => 4
    case Master => 1
  }

  /** A harder level always samples at a strictly lower temperature. */
  lemma TemperatureDecreasing(a: Level, b: Level)
    requires LevelRank(a) < LevelRank(b)
    ensures TemperatureTenths(a) > TemperatureTenths(b)
  {
  }

  /** `isConfigured`: Stockfish always; `gpt-` models iff the OpenAI key is non-empty;
      `gemini-` models iff the Gemini key is non-empty; nothing else. */
  function IsConfigured(keys: ProviderKeys, model: string): (ok: bool)
    ensures model == "stockfish" ==> ok
    ensures model != "stockfish" && StartsWith(model, "gpt-") ==> (ok <==> keys.openai != "")
    ensures model != "stockfish" && !StartsWith(model, "gpt-") && StartsWith(model, "gemini-") ==> (ok <==> keys.gemini != "")
    ensures ok ==> model == "stockfish" || StartsWith(model, "gpt-") || StartsWith(model, "gemini-")
  {
    if model == "stockfish" then true
    else if StartsWith(model, "gpt-") then keys.openai != ""
    else if StartsWith(model, "gemini-") then keys.gemini != ""
    else false
  }

  /** The two provider model names fall under the expected prefixes. */
  lemma ModelPrefixes()
    ensures StartsWith("gpt-3.5-turbo", "gpt-")
    ensures !StartsWith("gemini-2.0-flash-lite", "gpt-") && StartsWith("gemini-2.0-flash-lite", "gemini-")
  {
    assert "gpt-3.5-turbo"[..4] == "gpt-";
    assert "gemini-2.0-flash-lite"[..4] == "gemi";
    assert "gemini-2.0-flash-lite"[..7] == "gemini-";
  }

  datatype ModelEntry = ModelEntry(model: string, name: string, configured: bool)

  /** `getAvailableModels`: the three models in a fixed order, Stockfish always configured. */
  function GetAvailableModels(keys: ProviderKeys): (r: seq<ModelEntry>)
    ensures |r| == 3
    ensures r[0].model == "stockfish" && r[0].configured
    ensures forall i :: 0 <= i < |r| ==> r[i].configured == IsConfigured(keys, r[i].model)
    ensures r[1].configured <==> keys.openai != ""
    ensures r[2].configured <==> keys.gemini != ""
  {
    ModelPrefixes();
    [ ModelEntry("stockfish", "Stockfish (Local)", true),
      ModelEntry("gpt-3.5-turbo", "ChatGPT-3.5 (OpenAI)", IsConfigured(keys, "gpt-3.5-turbo")),
      ModelEntry("gemini-2.0-flash-lite", "Gemini Flash (Google)", IsConfigured(keys, "gemini-2.0-flash-lite")) ]
  }

  // ---------------------------------------------------------------- dispatch

  /** `getMove` for a given reply. `reply` is the text the model's API answered, or `None`
      when the request failed, threw or returned no candidate. Stockfish and unknown model
      names answer null; so does a provider whose key is empty (the request is never made);
      otherwise the trimmed reply goes through `parseUCIMove`, as written. Every failure is a
      null result, never an error. */
  function GetMove(keys: ProviderKeys, model: string, reply: Option<string>): (r: Option<AIMove>)
    ensures model != "gpt-3.5-turbo" && model != "gemini-2.0-flash-lite" ==> r == None
    ensures reply.None? ==> r == None
    ensures r.Some? ==> IsConfigured(keys, model) && model != "stockfish"
    ensures r.Some? ==> r == ParseUCIMove(Trim(reply.value))
    ensures r.Some? ==> IsValidSquare(r.value.from) && IsValidSquare(r.value.to)
    ensures model == "gpt-3.5-turbo" && keys.openai != "" && reply.Some? ==> r == ParseUCIMove(Trim(reply.value))
    ensures model == "gemini-2.0-flash-lite" && keys.gemini != "" && reply.Some? ==> r == ParseUCIMove(Trim(reply.value))
  {
    ModelPrefixes();
    if model == "stockfish" then None
    else if model == "gpt-3.5-turbo" then
      (if keys.openai == "" || reply.None? then None else ParseUCIMove(Trim(reply.value)))
    else if model == "gemini-2.0-flash-lite" then
      (if keys.gemini == "" || reply.None? then None else ParseUCIMove(Trim(reply.value)))
    else None
  }

  /** `getMove` with the corrected parser: the same dispatch, with the promotion letter kept. */
  function GetMoveFixed(keys: ProviderKeys, model: string, reply: Option<string>): (r: Option<AIMove>)
    ensures model != "gpt-3.5-turbo" && model != "gemini-2.0-flash-lite" ==> r == None
    ensures reply.None? ==> r == None
    ensures r.Some? ==> IsConfigured(keys, model) && model != "stockfish"
    ensures r.Some? ==> r == ParseUCIMoveFixed(Trim(reply.value))
    ensures model == "gpt-3.5-turbo" && keys.openai != "" && reply.Some? ==> r == ParseUCIMoveFixed(Trim(reply.value))
    ensures model == "gemini-2.0-flash-lite" && keys.gemini != "" && reply.Some? ==> r == ParseUCIMoveFixed(Trim(reply.value))
  {
    ModelPrefixes();
    if model == "stockfish" then None
    else if model == "gpt-3.5-turbo" then
      (if keys.openai == "" || reply.None? then None else ParseUCIMoveFixed(Trim(reply.value)))
    else if model == "gemini-2.0-flash-lite" then
      (if keys.gemini == "" || reply.None? then None else ParseUCIMoveFixed(Trim(reply.value)))
    else None
  }

  /** A UCI move text has no whitespace to trim. */
  lemma TrimUci(u: string)
    requires IsUciText(u)
    ensures Trim(u) == u
  {
    UciTextLowerAndKept(u);
    assert KeptIntended(u[0]) && KeptIntended(u[|u| - 1]);
    TrimmedIsFixed(u);
  }

  /** A configured provider that answers a UCI move text gets exactly that move back through
      the corrected dispatch, promotion included. */
  lemma GetMoveFixedReturnsUci(keys: ProviderKeys, model: string, u: string)
    requires IsUciText(u)
    requires (model == "gpt-3.5-turbo" && keys.openai != "") || (model == "gemini-2.0-flash-lite" && keys.gemini != "")
    ensures GetMoveFixed(keys, model, Some(u)) == Some(AIMove(u[..2], u[2..4], if |u| == 5 then Some([u[4]]) else None))
  {
    TrimUci(u);
    FixedParsesUci(u);
  }

  /** The reply "e7e8q" from a configured OpenAI model: as written the promotion is lost. */
  lemma GetMoveDropsQueen(keys: ProviderKeys)
    requires keys.openai != ""
    ensures GetMove(keys, "gpt-3.5-turbo", Some("e7e8q")) == Some(AIMove("e7", "e8", None))
    ensures GetMoveFixed(keys, "gpt-3.5-turbo", Some("e7e8q")) == Some(AIMove("e7", "e8", Some("q")))
  {
    TrimUci("e7e8q");
    QueenPromotionLost();
  }
}
