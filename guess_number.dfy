/**
 * The guess-the-number game of `guess-number-game/main.go`.  The random
 * secret is a parameter, and each line `fmt.Scanln` reads is given as
 * `Some(n)` when it parses as an integer and `None` when the scan fails, in
 * which case `enteredNum` keeps its previous value (0 before the first read).
 */
module GuessNumber {
  import opened Wrappers

  /** `maxTries`. */
  const MaxIntentos: nat := 10

  /** What the game prints after a guess: a hit, "el numero es mayor" or "el numero es menor". */
  datatype Pista = Acierto | EsMayor | EsMenor

  function PistaPara(intento: int, secreto: int): (p: Pista)
    ensures p == Acierto <==> intento == secreto
    ensures p == EsMayor <==> intento < secreto
    ensures p == EsMenor <==> intento > secreto
  {
    if intento == secreto then Acierto
    else if intento < secreto then EsMayor
    else EsMenor
  }

  /** `fmt.Scanln(&enteredNum)` on the `k`-th line: a failed or missing read leaves the variable as it was. */
  function Leer(anterior: int, lecturas: seq<Option<int>>, k: nat): int
  {
    if k < |lecturas| && lecturas[k].Some? then lecturas[k].value else anterior
  }

  /** The value of `enteredNum` after each of the first `n` reads. */
  function Adivinanzas(lecturas: seq<Option<int>>, n: nat): (g: seq<int>)
    ensures |g| == n
    decreases n
  {
    if n == 0 then []
    else
      var previas := Adivinanzas(lecturas, n - 1);
      var anterior := if n == 1 then 0 else previas[n - 2];
      previas + [Leer(anterior, lecturas, n - 1)]
  }

  /** When every line parses, the guesses are exactly the numbers typed. */
  lemma {:induction false} AdivinanzasLeidas(lecturas: seq<Option<int>>, n: nat)
    requires n <= |lecturas|
    requires forall k :: 0 <= k < n ==> lecturas[k].Some?
    ensures forall k :: 0 <= k < n ==> Adivinanzas(lecturas, n)[k] == lecturas[k].value
    decreases n
  {
    if n > 0 {
      AdivinanzasLeidas(lecturas, n - 1);
    }
  }

  /** A failed read repeats the previous guess; before any successful read the guess is 0. */
  lemma {:induction false} AdivinanzaFallida(lecturas: seq<Option<int>>, n: nat, k: nat)
    requires k < n
    requires k >= |lecturas| || lecturas[k].None?
    ensures Adivinanzas(lecturas, n)[k] == if k == 0 then 0 else Adivinanzas(lecturas, n)[k - 1]
    decreases n
  {
    if k < n - 1 {
      AdivinanzaFallida(lecturas, n - 1, k);
    }
  }

  /**
   * `play`: one game.  `pistas` has one entry per try, `restantes` the
   * remaining-tries count shown before each read, and `revelado` the secret
   * printed when the tries run out.
   */
  method Jugar(secreto: int, lecturas: seq<Option<int>>)
    returns (pistas: seq<Pista>, restantes: seq<int>, revelado: Option<int>)
    ensures 1 <= |pistas| <= MaxIntentos
    ensures |restantes| == |pistas|
    ensures forall k :: 0 <= k < |restantes| ==> restantes[k] == MaxIntentos - k
    ensures forall k :: 0 <= k < |pistas| ==>
      pistas[k] == PistaPara(Adivinanzas(lecturas, |pistas|)[k], secreto)
    ensures forall k :: 0 <= k < |pistas| - 1 ==> pistas[k] != Acierto
    ensures revelado == None <==> pistas[|pistas| - 1] == Acierto
    ensures revelado != None ==> |pistas| == MaxIntentos && revelado == Some(secreto)
  {
    var enteredNum := 0;
    var tries := 0;
    pistas, restantes := [], [];
    while tries < MaxIntentos
      invariant tries <= MaxIntentos
      invariant |pistas| == |restantes| == tries
      invariant forall k :: 0 <= k < tries ==> restantes[k] == MaxIntentos - k
      invariant forall k :: 0 <= k < tries ==>
        pistas[k] == PistaPara(Adivinanzas(lecturas, tries)[k], secreto)
      invariant forall k :: 0 <= k < tries ==> pistas[k] != Acierto
      invariant enteredNum == if tries == 0 then 0 else Adivinanzas(lecturas, tries)[tries - 1]
    {
      tries := tries + 1;
      restantes := restantes + [MaxIntentos - tries + 1];
      enteredNum := Leer(enteredNum, lecturas, tries - 1);
      assert Adivinanzas(lecturas, tries) == Adivinanzas(lecturas, tries - 1) + [enteredNum];
      if enteredNum == secreto {
        pistas := pistas + [Acierto];
        revelado := None;
        return;
      } else if enteredNum < secreto {
        pistas := pistas + [EsMayor];
      } else if enteredNum > secreto {
        pistas := pistas + [EsMenor];
      }
    }
    revelado := Some(secreto);
  }

  /** `playAgain`'s outcome: "s" plays again, "n" says goodbye; input running out leaves no answer. */
  datatype Decision = OtraPartida | Terminar | SinRespuesta

  /**
   * `playAgain` over the answers it reads: any answer other than "s" or "n"
   * asks again.  Also returns how many answers were read.
   */
  function JugarDeNuevo(respuestas: seq<string>): (r: (Decision, nat))
    ensures r.1 <= |respuestas|
    ensures r.0 == OtraPartida ==> r.1 >= 1 && respuestas[r.1 - 1] == "s"
    ensures r.0 == Terminar ==> r.1 >= 1 && respuestas[r.1 - 1] == "n"
    ensures r.0 == SinRespuesta ==> r.1 == |respuestas|
    ensures forall k :: 0 <= k < r.1 && (r.0 == SinRespuesta || k < r.1 - 1) ==>
      respuestas[k] != "s" && respuestas[k] != "n"
    decreases |respuestas|
  {
    if respuestas == [] then (SinRespuesta, 0)
    else if respuestas[0] == "s" then (OtraPartida, 1)
    else if respuestas[0] == "n" then (Terminar, 1)
    else
      var resto := JugarDeNuevo(respuestas[1..]);
      (resto.0, resto.1 + 1)
  }
}
