# DC shunt machine efficiency, modelled in Dafny

The repository is a small Streamlit page around one function, `Gen_Eff(V, CL, IL, K, Rsh, Ra)`
(app.py, lines 3-26). It takes the terminal voltage `V`, the core losses `CL`, the full-load
current `IL`, the loading factor `K`, the shunt-field resistance `Rsh` and the armature
resistance `Ra`. It returns either `(Eff, CUL)` (percentage efficiency and copper loss) or
`(None, message)`.

`Gen_Eff` tests three guards in a fixed order. The first one that fails decides the message:

1. `Rsh <= 0 or Ra <= 0`: "Resistance values must be greater than zero."
2. `IL <= 0`: "Full load current (IL) must be greater than zero."
3. `K * V * IL == 0`: "Invalid motor parameters, calculation results in zero denominator."

Otherwise it computes `Ish = V / Rsh`, `Ia = K*IL - Ish`, `CUL = Ish*2*Rsh + Ia*2*Ra` and
`Eff = ((K*V*IL - CL - CUL) / (K*V*IL)) * 100`.

`efficiency.dfy` holds one module, `EfficiencyCalculator`. It is pure, like the source:
- `GenEff` returns a typed `Outcome`: `Ok(eff, cul)` or `Err(kind)`. An `Err` carries no number.
- `GenEffPair` gives the same result in Python's `(first, second)` shape.
- `FromPair` inverts `ToPair`. Only its test on the first slot is the caller's `Eff is None` test (app.py:48); the caller shows any message as it is, while `FromPair` also works out which refusal it names.

Arithmetic is over Dafny's exact `real`, standing in for Python floats.

Notes on the source:
- **Doubled, not squared.** Line 18 multiplies each current by two (`Ish*2`, `Ia*2`). It does not square it.
  A physical I²R copper loss would square the currents.
  The model follows the code. So for V=220, CL=500, IL=20, K=1, Rsh=110, Ra=0.5 it gives `CUL = 458`,
  not the I²R value 602 (`DoubledNotSquared`).
- Because `Rsh > 0` holds by the time line 12 runs, the shunt term `Ish*2*Rsh` is exactly `2*V` over the reals; Python floats may round it to a nearby value.
- The comment on line 17 and the label on line 54 call `CUL` "Core losses". `CL` is the core-loss input;
  `CUL` is the copper loss.
- `CUL` is computed (line 18) before the denominator is tested (line 21). Over the reals this order has no
  visible effect, and the model keeps it.
- Nothing clamps `Eff` or `CUL`. An efficiency above 100 or below 0, or a negative armature current,
  is returned as is.
- `GenEff` is a function, so identical inputs always give identical results and no input is changed.

## Model

| member | source | states |
|---|---|---|
| EfficiencyCalculator.GenEff | app.py:3-26 | a result (not a refusal) comes back exactly when Rsh > 0, Ra > 0, IL > 0, K ≠ 0 and V ≠ 0 |
| EfficiencyCalculator.ResistanceErrorDominates | app.py:5-6 | if Rsh ≤ 0 or Ra ≤ 0, the result is the resistance refusal whatever V, CL, IL and K are |
| EfficiencyCalculator.LoadCurrentError | app.py:8-9 | with both resistances positive, IL ≤ 0 gives the load-current refusal whatever V, CL and K are |
| EfficiencyCalculator.ZeroDenominatorIff | app.py:21-22 | past the first two guards, the zero-denominator refusal happens if and only if K = 0 or V = 0 |
| EfficiencyCalculator.ErrorPriority | app.py:5-22 | each refusal happens if and only if its own guard fails and every earlier guard passes (a bad resistance is blamed before a bad load current) |
| EfficiencyCalculator.ShuntFieldCurrent | app.py:5-12 | Ish·Rsh = V (Ohm's law), and Ish > 0 iff V > 0; the division is reached only with Rsh > 0 |
| EfficiencyCalculator.CopperLoss | app.py:18 | CUL is twice Ish·Rsh plus twice Ia·Ra (each current doubled, not squared), and when Ish is the shunt-field current for V the shunt term is exactly 2·V |
| EfficiencyCalculator.Denominator | app.py:21 | for IL > 0, the input power K·V·IL is zero if and only if K = 0 or V = 0 |
| EfficiencyCalculator.Efficiency | app.py:24 | Eff·D = 100·(D − CL − CUL) for the non-zero input power D |
| EfficiencyCalculator.CopperLossClosedForm | app.py:12-18 | on success CUL = (V/Rsh)·2·Rsh + (K·IL − V/Rsh)·2·Ra, which equals 2·V + 2·(K·IL − V/Rsh)·Ra |
| EfficiencyCalculator.EfficiencyClosedForm | app.py:21-24 | on success K·V·IL ≠ 0, Eff·(K·V·IL) = 100·(K·V·IL − CL − CUL), and Eff = 100 − 100·(CL + CUL)/(K·V·IL) |
| EfficiencyCalculator.LossShare | app.py:24 | for a non-zero D, ((D − x)/D)·100 = 100 − 100·x/D: the efficiency is 100 minus the lost share |
| EfficiencyCalculator.EfficiencyBelowHundredIff | app.py:24 | with K·V·IL > 0, Eff < 100 if and only if CL + CUL > 0 |
| EfficiencyCalculator.EfficiencyFallsWithCoreLoss | app.py:18-24 | CUL does not depend on CL, and with K·V·IL > 0 a larger CL gives a strictly lower Eff |
| EfficiencyCalculator.Message | app.py:6-22 | each refusal's message (the strings at lines 6, 9 and 22) reads back as that refusal, so the three messages are pairwise different |
| EfficiencyCalculator.KindOfMessage | app.py:6-22 | a text is recognised as a refusal exactly when it is one of the three messages |
| EfficiencyCalculator.KindOfMessageInverse | app.py:6-22 | a text reads back as a given refusal if and only if it is that refusal's message |
| EfficiencyCalculator.ToPair | app.py:6-26 | the first slot is None exactly for a refusal, and then the second slot is that refusal's message; otherwise the pair is (Eff, CUL) |
| EfficiencyCalculator.FromPair | app.py:46-50 | a pair read as a refusal has None first, and one read as a result has a number first (the caller's first-slot test); the inversion is `PairRoundTrip` |
| EfficiencyCalculator.PairRoundTrip | app.py:46-50 | reading back the returned pair recovers the outcome, so no refusal is taken for a result and no result for a refusal |
| EfficiencyCalculator.GenEffPair | app.py:3-26 | the first slot is None exactly when some guard fails, and then the second slot is a message string, never a partial number |
| EfficiencyCalculator.DoubledNotSquared | app.py:12-26 | for V=220, CL=500, IL=20, K=1, Rsh=110, Ra=0.5 the result is (3442/44, 458), and 458 is not the I²R value 602 |
| EfficiencyCalculator.ZeroVoltageRefused | app.py:21-22 | V=0, IL=5, K=1, Rsh=10, Ra=1 is refused with the zero-denominator message |

## Left out

- The Streamlit page (app.py:1 and app.py:28-54) is not modelled. This covers the title and text, the six `number_input` widgets, the button, `st.error`, `st.write` and the `:.2f` formatting. It is presentation code around an external library. Of the caller, only its `Eff is None` test is modelled, as the first-slot test of `FromPair`.
- The widgets' `min_value=0.0` (app.py:36-41) is a UI-side limit that `Gen_Eff` does not check. The model does not assume V, CL, IL or K is non-negative.
- IEEE-754 behaviour is not modelled, because the model uses exact reals. This leaves out rounding and infinities. It also leaves out NaN inputs, which pass the `<= 0` guards because every comparison with NaN is false. And it leaves out underflow, where `K*V*IL` can round to 0 with non-zero factors. So `ZeroDenominatorIff` and `Denominator` hold for exact reals, not for floats.
